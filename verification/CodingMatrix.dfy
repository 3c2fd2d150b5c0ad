/** The systematic coding matrix: the Vandermonde matrix times the inverse of its
    own top square, so that data shards are coded as themselves. */
module CodingMatrix {
  import opened Options
  import opened GaloisField
  import opened Matrices
  import opened Elimination
  import opened Vandermonde

  function Points(n: nat): (xs: seq<Byte>)
    ensures |xs| == n
  {
    seq(n, (i: nat) => ToByte(i))
  }

  /** The top square of the Vandermonde matrix. */
  ghost function Top(k: nat): (m: Matrix)
    ensures Shaped(m, k, k)
  {
    PowerRows(Points(k), k)
  }

  lemma {:induction false} PointsDistinct(n: nat)
    requires n <= 256
    ensures NoRepeats(Points(n))
  {
    hide ToByte;
    forall i, j | 0 <= i < j < n
      ensures Points(n)[i] != Points(n)[j]
    {
      if ToByte(i) == ToByte(j) {
        ToByteInjective(i, j);
      }
    }
  }

  /** C * Top == Vandermonde. This determines C (see `CodingMatrixUnique`). */
  ghost predicate IsCodingMatrix(c: Matrix, k: nat, n: nat) {
    && 0 < k <= n <= 256
    && Shaped(c, n, k)
    && forall r, j :: 0 <= r < n && 0 <= j < k ==> Dot(c[r], Column(Top(k), j), k) == Pow(ToByte(r), j)
  }

  ghost function SumRow(a: Row, b: Row): (r: Row)
    requires |a| == |b|
    ensures |r| == |a|
  {
    AddScaledRow(a, One, b)
  }

  lemma {:induction false} SumRowZero(a: Row, b: Row)
    requires |a| == |b| && AllZero(SumRow(a, b))
    ensures a == b
  {
    hide Add, Mul;
    forall i | 0 <= i < |a|
      ensures a[i] == b[i]
    {
      MulOne(b[i]);
      assert SumRow(a, b)[i] == Zero;
      AddCancel(a[i], b[i]);
    }
  }

  /** A row is determined by its products with the columns of the top square. */
  lemma {:induction false} RowDetermined(k: nat, a: Row, b: Row)
    requires k <= 256 && |a| == |b| == k
    requires forall j :: 0 <= j < k ==> Dot(a, Column(Top(k), j), k) == Dot(b, Column(Top(k), j), k)
    ensures a == b
  {
    hide Add, Mul, Dot, Combine, Powers;
    var top := Top(k);
    var d := SumRow(a, b);
    forall j | 0 <= j < k
      ensures Combine(d, top, k, k)[j] == Zero
    {
      CombineEntry(d, top, k, k, j);
      DotAddScaled(a, One, b, Column(top, j), k);
      MulOne(Dot(b, Column(top, j), k));
      AddSelf(Dot(a, Column(top, j), k));
    }
    PointsDistinct(k);
    forall i | 0 <= i < k
      ensures d[i] == Zero
    {
      RowsIndependent(Points(k), d, i);
    }
    SumRowZero(a, b);
  }

  lemma {:induction false} CodingMatrixUnique(c: Matrix, c': Matrix, k: nat, n: nat)
    requires IsCodingMatrix(c, k, n) && IsCodingMatrix(c', k, n)
    ensures c == c'
  {
    hide Dot, Top, Pow, ToByte;
    forall r | 0 <= r < n
      ensures c[r] == c'[r]
    {
      RowDetermined(k, c[r], c'[r]);
    }
  }

  /** Data shards are coded as themselves. */
  lemma {:induction false} Systematic(c: Matrix, k: nat, n: nat, r: nat)
    requires IsCodingMatrix(c, k, n) && r < k
    ensures c[r] == UnitRow(k, r)
  {
    hide Dot, Pow, ToByte;
    forall j | 0 <= j < k
      ensures Dot(c[r], Column(Top(k), j), k) == Dot(UnitRow(k, r), Column(Top(k), j), k)
    {
      DotUnit(UnitRow(k, r), Column(Top(k), j), k, r);
    }
    RowDetermined(k, c[r], UnitRow(k, r));
  }

  function Select(m: Matrix, selected: seq<nat>): (s: Matrix)
    requires forall i :: 0 <= i < |selected| ==> selected[i] < |m|
    ensures |s| == |selected|
  {
    seq(|selected|, i requires 0 <= i < |selected| => m[selected[i]])
  }

  ghost predicate DistinctIndices(selected: seq<nat>, n: nat) {
    && (forall i :: 0 <= i < |selected| ==> selected[i] < n)
    && forall i, j :: 0 <= i < j < |selected| ==> selected[i] != selected[j]
  }

  /** Any k distinct rows of the coding matrix are independent. */
  lemma {:induction false} AnyRowsIndependent(c: Matrix, k: nat, n: nat, selected: seq<nat>, u: Row)
    requires IsCodingMatrix(c, k, n) && |selected| == k && DistinctIndices(selected, n) && |u| == k
    requires AllZero(Combine(u, Select(c, selected), k, k))
    ensures AllZero(u)
  {
    hide Add, Mul, Dot, Combine, ToByte, Pow, Top;
    var s := Select(c, selected);
    var xs := seq(k, i requires 0 <= i < k => ToByte(selected[i]));
    forall i, j | 0 <= i < j < k
      ensures xs[i] != xs[j]
    {
      if ToByte(selected[i]) == ToByte(selected[j]) {
        ToByteInjective(selected[i], selected[j]);
      }
    }
    forall j | 0 <= j < k
      ensures Combine(u, PowerRows(xs, k), k, k)[j] == Zero
    {
      var column := Column(Top(k), j);
      var image := Column(PowerRows(xs, k), j);
      CombineDot(u, s, column, image, k, k);
      DotZero(Combine(u, s, k, k), column, k);
      CombineEntry(u, PowerRows(xs, k), k, k, j);
    }
    forall i | 0 <= i < k
      ensures u[i] == Zero
    {
      RowsIndependent(xs, u, i);
    }
  }

  /** Only the zero vector is orthogonal to every row. */
  ghost predicate Invertible(m: Matrix, size: nat) {
    && Shaped(m, size, size)
    && forall v: Row | |v| == size :: InKernel(m, v) ==> AllZero(v)
  }

  lemma {:induction false} TopInvertible(k: nat)
    requires k <= 256
    ensures Invertible(Top(k), k)
  {
    hide Dot, Eval, Pow, ToByte;
    PointsDistinct(k);
    forall v: Row | |v| == k && InKernel(Top(k), v)
      ensures AllZero(v)
    {
      forall i | 0 <= i < k
        ensures Eval(v, Points(k)[i]) == Zero
      {
        EvalIsDot(v, Points(k)[i], k);
        assert Dot(Top(k)[i], v, |v|) == Zero;
      }
      FewRoots(v, Points(k));
    }
  }

  /** The independence Gauss-Jordan tests is invertibility of the left block. */
  lemma {:induction false} LeftBlockInvertible(a: Matrix, work: Matrix, size: nat, columns: nat)
    requires size <= columns && Shaped(a, size, size) && Shaped(work, size, columns)
    requires forall r :: 0 <= r < size ==> work[r][..size] == a[r]
    ensures Independent(work, size, columns) <==> Invertible(a, size)
  {
    hide Dot;
    if Independent(work, size, columns) {
      forall v: Row | |v| == size && InKernel(a, v)
        ensures AllZero(v)
      {
        var padded := v + ZeroRow(columns - size);
        forall r | 0 <= r < size
          ensures Dot(work[r], padded, columns) == Zero
        {
          PaddedDot(work[r], v, columns);
          assert Dot(a[r], v, |v|) == Zero;
        }
        assert InKernelOfLeft(work, padded, size, columns);
        assert forall i :: 0 <= i < size ==> v[i] == padded[i];
      }
    }
    if Invertible(a, size) {
      forall v: Row | InKernelOfLeft(work, v, size, columns)
        ensures forall j :: 0 <= j < columns ==> v[j] == Zero
      {
        var left := v[..size];
        assert v == left + ZeroRow(columns - size);
        forall r | 0 <= r < size
          ensures Dot(a[r], left, size) == Zero
        {
          PaddedDot(work[r], left, columns);
          assert Dot(work[r], v, |v|) == Zero;
        }
        assert InKernel(a, left);
        assert forall i :: 0 <= i < size ==> v[i] == left[i];
      }
    }
  }

  lemma {:induction false} PaddedDot(row: Row, v: Row, columns: nat)
    requires |v| <= columns == |row|
    ensures Dot(row, v + ZeroRow(columns - |v|), columns) == Dot(row[..|v|], v, |v|)
  {
    hide Dot, Add, Mul;
    var zeros := ZeroRow(columns - |v|);
    DotConcat(row, v, zeros, columns);
    DotComm(row[|v|..], zeros, columns - |v|);
    DotZero(zeros, row[|v|..], columns - |v|);
    AddZero(Dot(row[..|v|], v, |v|));
  }

  /** m * inverse == identity. */
  ghost predicate IsRightInverse(m: Matrix, inverse: Matrix, size: nat) {
    && Shaped(m, size, size)
    && Shaped(inverse, size, size)
    && forall r, c :: 0 <= r < size && 0 <= c < size ==>
                        Dot(m[r], Column(inverse, c), size) == if r == c then One else Zero
  }

  /** Succeeds exactly on nonempty invertible square matrices. */
  method Invert(matrix: Matrix) returns (result: Result<Matrix>)
    ensures result.Ok? <==> |matrix| > 0 && Invertible(matrix, |matrix|)
    ensures result.Err? ==> result.error == SingularMatrix
    ensures result.Ok? ==> IsRightInverse(matrix, result.value, |matrix|)
  {
    hide Dot, Independent, InKernel, IsRightInverse, SameKernel, LeftIdentity;
    var size := |matrix|;
    if size == 0 {
      return Err(SingularMatrix);
    }
    for r := 0 to size
      invariant forall i :: 0 <= i < r ==> |matrix[i]| == size
    {
      if |matrix[r]| != size {
        return Err(SingularMatrix);
      }
    }
    var width := size * 2;
    var work := new Row[size](_ => []);
    for r := 0 to size
      invariant forall i :: 0 <= i < r ==> work[i] == matrix[i] + UnitRow(size, i)
    {
      work[r] := matrix[r] + seq(width - size, _ => Zero);
      work[r] := work[r][size + r := One];
      assert work[r] == matrix[r] + UnitRow(size, r);
    }
    ghost var start := work[..];
    assert Shaped(start, size, width);
    LeftBlockInvertible(matrix, start, size, width);
    var outcome := GaussJordan(work, size);
    if outcome.Failed? {
      return Err(outcome.error);
    }
    ghost var end := work[..];
    ShapesOfSameKernel(start, end, size, width);
    var inverse: Matrix := [];
    for r := 0 to size
      invariant |inverse| == r && work[..] == end
      invariant forall i :: 0 <= i < r ==> inverse[i] == end[i][size..]
    {
      inverse := inverse + [work[r][size..]];
    }
    RightBlockInverts(matrix, start, end, inverse, size);
    result := Ok(inverse);
  }

  lemma {:induction false} ShapesOfSameKernel(a: Matrix, b: Matrix, rows: nat, columns: nat)
    requires SameKernel(a, b, rows, columns)
    ensures Shaped(a, rows, columns) && Shaped(b, rows, columns)
  {}

  lemma {:induction false} RightBlockInverts(matrix: Matrix, start: Matrix, end: Matrix, inverse: Matrix, size: nat)
    requires Shaped(matrix, size, size) && Shaped(start, size, 2 * size) && Shaped(end, size, 2 * size)
    requires SameKernel(start, end, size, 2 * size) && LeftIdentity(end, size, 2 * size)
    requires forall i :: 0 <= i < size ==> start[i] == matrix[i] + UnitRow(size, i)
    requires |inverse| == size && forall i :: 0 <= i < size ==> inverse[i] == end[i][size..]
    ensures IsRightInverse(matrix, inverse, size)
  {
    hide Dot, SameKernel, LeftIdentity;
    forall r, c | 0 <= r < size && 0 <= c < size
      ensures Dot(matrix[r], Column(inverse, c), size) == if r == c then One else Zero
    {
      RightBlockSolves(start, end, size, 2 * size, r, c);
      assert start[r][..size] == matrix[r];
      assert Column(inverse, c) == Column(end, size + c);
    }
  }

  method MatrixMultiply(left: Matrix, right: Matrix, ghost inner: nat, ghost columns: nat) returns (result: Matrix)
    requires 0 < inner && Shaped(left, |left|, inner) && Shaped(right, inner, columns)
    ensures Shaped(result, |left|, columns)
    ensures forall r, c :: 0 <= r < |left| && 0 <= c < columns ==>
                             result[r][c] == Dot(left[r], Column(right, c), inner)
  {
    hide Mul, Add;
    result := [];
    for r := 0 to |left|
      invariant Shaped(result, r, columns)
      invariant forall i, c :: 0 <= i < r && 0 <= c < columns ==>
                                 result[i][c] == Dot(left[i], Column(right, c), inner)
    {
      var row: Row := [];
      for c := 0 to |right[0]|
        invariant |row| == c
        invariant forall i :: 0 <= i < c ==> row[i] == Dot(left[r], Column(right, i), inner)
      {
        var value := Zero;
        for index := 0 to |right|
          invariant value == Dot(left[r], Column(right, c), index)
        {
          var product := GfMul(left[r][index], right[index][c]);
          value := Add(value, product);
        }
        row := row + [value];
      }
      result := result + [row];
    }
  }

  /** A right inverse of the top square is a left inverse too. */
  lemma {:induction false} InverseOfTopCommutes(inverse: Matrix, k: nat, j: nat, image: Row)
    requires k <= 256 && IsRightInverse(Top(k), inverse, k) && j < k && |image| == k
    requires forall i :: 0 <= i < k ==> image[i] == Dot(inverse[i], Column(Top(k), j), k)
    ensures image == UnitRow(k, j)
  {
    hide Dot, Mul, Add, Pow, ToByte, Combine, Top;
    var top := Top(k);
    var column := Column(top, j);
    var difference := SumRow(image, UnitRow(k, j));
    forall r | 0 <= r < k
      ensures Dot(top[r], difference, k) == Zero
    {
      CombineDot(top[r], inverse, column, image, k, k);
      forall c | 0 <= c < k
        ensures Combine(top[r], inverse, k, k)[c] == if c == r then One else Zero
      {
        CombineEntry(top[r], inverse, k, k, c);
      }
      DotUnit(Combine(top[r], inverse, k, k), column, k, r);
      DotUnit(UnitRow(k, j), top[r], k, j);
      DotComm(top[r], difference, k);
      DotAddScaled(image, One, UnitRow(k, j), top[r], k);
      DotComm(image, top[r], k);
      MulOne(Dot(UnitRow(k, j), top[r], k));
      AddSelf(top[r][j]);
    }
    TopInvertible(k);
    assert InKernel(top, difference);
    SumRowZero(image, UnitRow(k, j));
  }

  lemma {:induction false} ProductIsCodingMatrix(vandermonde: Matrix, inverse: Matrix, c: Matrix, k: nat, n: nat)
    requires 0 < k <= n <= 256 && vandermonde == PowerRows(Points(n), k)
    requires IsRightInverse(Top(k), inverse, k) && Shaped(c, n, k)
    requires forall r, i :: 0 <= r < n && 0 <= i < k ==> c[r][i] == Dot(vandermonde[r], Column(inverse, i), k)
    ensures IsCodingMatrix(c, k, n)
  {
    hide Dot, Mul, Add, Pow, ToByte, Combine, Top;
    forall r, j | 0 <= r < n && 0 <= j < k
      ensures Dot(c[r], Column(Top(k), j), k) == Pow(ToByte(r), j)
    {
      var column := Column(Top(k), j);
      var image := seq(k, i requires 0 <= i < k => Dot(inverse[i], column, k));
      InverseOfTopCommutes(inverse, k, j, image);
      CombineDot(vandermonde[r], inverse, column, image, k, k);
      forall i | 0 <= i < k
        ensures Combine(vandermonde[r], inverse, k, k)[i] == c[r][i]
      {
        CombineEntry(vandermonde[r], inverse, k, k, i);
      }
      assert Combine(vandermonde[r], inverse, k, k) == c[r];
      DotComm(vandermonde[r], image, k);
      DotUnit(image, vandermonde[r], k, j);
    }
  }

  /** The matrix itself; the only failure is a shard count out of range. */
  method MakeCodingMatrix(dataCount: nat, totalCount: nat) returns (result: Result<Matrix>)
    ensures result.Ok? <==> 0 < dataCount <= totalCount <= 256
    ensures result.Err? ==> result.error == InvalidShardCount
    ensures result.Ok? ==> IsCodingMatrix(result.value, dataCount, totalCount)
  {
    hide Pow, ToByte, Dot, Invertible, IsRightInverse;
    if dataCount == 0 || totalCount < dataCount || totalCount > 256 {
      return Err(InvalidShardCount);
    }
    var vandermonde: Matrix := [];
    for r := 0 to totalCount
      invariant |vandermonde| == r
      invariant forall i :: 0 <= i < r ==> vandermonde[i] == Powers(ToByte(i), dataCount)
    {
      var row: Row := [];
      for c := 0 to dataCount
        invariant |row| == c
        invariant forall i :: 0 <= i < c ==> row[i] == Pow(ToByte(r), i)
      {
        var value := GfPow(ToByte(r), c);
        row := row + [value];
      }
      vandermonde := vandermonde + [row];
    }
    assert vandermonde == PowerRows(Points(totalCount), dataCount);
    var top := vandermonde[..dataCount];
    assert top == Top(dataCount);
    TopInvertible(dataCount);
    var inverse := Invert(top);
    var matrix := FinishCodingMatrix(vandermonde, inverse.value, dataCount, totalCount);
    result := Ok(matrix);
  }

  method FinishCodingMatrix(vandermonde: Matrix, inverse: Matrix, ghost k: nat, ghost n: nat)
      returns (matrix: Matrix)
    requires 0 < k <= n <= 256 && vandermonde == PowerRows(Points(n), k)
    requires IsRightInverse(Top(k), inverse, k)
    ensures IsCodingMatrix(matrix, k, n)
  {
    hide Pow, ToByte, Dot;
    matrix := MatrixMultiply(vandermonde, inverse, k, k);
    ProductIsCodingMatrix(vandermonde, inverse, matrix, k, n);
  }
}
