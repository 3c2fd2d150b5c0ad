/** Rows and matrices over GF(256): the linear algebra behind the erasure coder. */
module Matrices {
  import opened GaloisField

  type Row = seq<Byte>
  type Matrix = seq<Row>

  /** Sum of u[i] * v[i] for i < n. */
  ghost function Dot(u: Row, v: Row, n: nat): Byte
    requires n <= |u| && n <= |v|
  {
    if n == 0 then Zero else Add(Dot(u, v, n - 1), Mul(u[n - 1], v[n - 1]))
  }

  ghost function ScaleRow(scale: Byte, u: Row): (r: Row)
    ensures |r| == |u|
  {
    seq(|u|, i requires 0 <= i < |u| => Mul(u[i], scale))
  }

  /** target + scale * source. */
  ghost function AddScaledRow(target: Row, scale: Byte, source: Row): (r: Row)
    requires |target| == |source|
    ensures |r| == |target|
  {
    seq(|target|, i requires 0 <= i < |target| => Add(target[i], Mul(scale, source[i])))
  }

  function ZeroRow(n: nat): (r: Row)
    ensures |r| == n
  {
    seq(n, i => Zero)
  }

  function UnitRow(n: nat, at: nat): (r: Row)
    ensures |r| == n
  {
    seq(n, i => if i == at then One else Zero)
  }

  ghost predicate Shaped(m: Matrix, rows: nat, columns: nat) {
    |m| == rows && forall r :: 0 <= r < rows ==> |m[r]| == columns
  }

  function Column(m: Matrix, c: nat): (r: Row)
    requires forall i :: 0 <= i < |m| ==> c < |m[i]|
    ensures |r| == |m|
  {
    seq(|m|, i requires 0 <= i < |m| => m[i][c])
  }

  // ----- The dot product is linear

  lemma {:induction false} DotAgree(u: Row, u': Row, v: Row, v': Row, n: nat)
    requires n <= |u| && n <= |u'| && n <= |v| && n <= |v'|
    requires forall i :: 0 <= i < n ==> u[i] == u'[i] && v[i] == v'[i]
    ensures Dot(u, v, n) == Dot(u', v', n)
  {
    hide Add, Mul;
    if n != 0 {
      DotAgree(u, u', v, v', n - 1);
    }
  }

  lemma {:induction false} DotComm(u: Row, v: Row, n: nat)
    requires n <= |u| && n <= |v|
    ensures Dot(u, v, n) == Dot(v, u, n)
  {
    hide Add, Mul;
    if n != 0 {
      DotComm(u, v, n - 1);
      MulComm(u[n - 1], v[n - 1]);
    }
  }

  lemma {:induction false} DotScale(scale: Byte, u: Row, v: Row, n: nat)
    requires n <= |u| && n <= |v|
    ensures Dot(ScaleRow(scale, u), v, n) == Mul(scale, Dot(u, v, n))
  {
    hide Add, Mul;
    if n == 0 {
      MulZero(scale);
    } else {
      DotScale(scale, u, v, n - 1);
      MulAddRight(scale, Dot(u, v, n - 1), Mul(u[n - 1], v[n - 1]));
      MulComm(u[n - 1], scale);
      MulAssoc(scale, u[n - 1], v[n - 1]);
    }
  }

  lemma {:induction false} DotAddScaled(target: Row, scale: Byte, source: Row, v: Row, n: nat)
    requires |target| == |source| && n <= |target| && n <= |v|
    ensures Dot(AddScaledRow(target, scale, source), v, n)
            == Add(Dot(target, v, n), Mul(scale, Dot(source, v, n)))
  {
    hide Add, Mul;
    if n == 0 {
      MulZero(scale);
      AddZero(Zero);
    } else {
      DotAddScaled(target, scale, source, v, n - 1);
      var t, s, x := target[n - 1], source[n - 1], v[n - 1];
      MulAddLeft(t, Mul(scale, s), x);
      MulAssoc(scale, s, x);
      MulAddRight(scale, Dot(source, v, n - 1), Mul(s, x));
      AddInterchange(Dot(target, v, n - 1), Mul(scale, Dot(source, v, n - 1)), Mul(t, x), Mul(scale, Mul(s, x)));
    }
  }

  lemma {:induction false} DotZero(u: Row, v: Row, n: nat)
    requires n <= |u| && n <= |v|
    requires forall i :: 0 <= i < n ==> u[i] == Zero
    ensures Dot(u, v, n) == Zero
  {
    hide Add, Mul;
    if n != 0 {
      DotZero(u, v, n - 1);
      MulZero(v[n - 1]);
      AddZero(Zero);
    }
  }

  /** Dotting with a unit row selects one entry. */
  lemma {:induction false} DotUnit(u: Row, v: Row, n: nat, at: nat)
    requires n <= |u| && n <= |v| && at < n
    requires forall i :: 0 <= i < n ==> u[i] == if i == at then One else Zero
    ensures Dot(u, v, n) == v[at]
  {
    hide Add, Mul;
    if at == n - 1 {
      DotZero(u, v, n - 1);
      MulOne(v[at]);
      AddZero(v[at]);
    } else {
      DotUnit(u, v, n - 1, at);
      MulZero(v[n - 1]);
      AddZero(v[at]);
    }
  }

  /** Changing one zero entry adds one product. */
  lemma {:induction false} DotUpdate(u: Row, v: Row, n: nat, at: nat, value: Byte)
    requires n <= |u| && n <= |v| && at < n && v[at] == Zero
    ensures Dot(u, v[at := value], n) == Add(Dot(u, v, n), Mul(u[at], value))
  {
    hide Add, Mul;
    if at == n - 1 {
      DotAgree(u, u, v, v[at := value], n - 1);
      MulZero(u[at]);
      AddZero(Dot(u, v, n - 1));
    } else {
      DotUpdate(u, v, n - 1, at, value);
      AddAssoc(Dot(u, v, n - 1), Mul(u[at], value), Mul(u[n - 1], v[n - 1]));
      AddComm(Mul(u[at], value), Mul(u[n - 1], v[n - 1]));
      AddAssoc(Dot(u, v, n - 1), Mul(u[n - 1], v[n - 1]), Mul(u[at], value));
    }
  }

  /** The dot product splits over concatenation. */
  lemma {:induction false} DotConcat(u: Row, x: Row, y: Row, n: nat)
    requires |u| == |x| + |y| && |x| <= n <= |u|
    ensures Dot(u, x + y, n) == Add(Dot(u[..|x|], x, |x|), Dot(u[|x|..], y, n - |x|))
    decreases n
  {
    hide Add, Mul;
    if n == |x| {
      DotAgree(u, u[..|x|], x + y, x, n);
      AddZero(Dot(u[..|x|], x, |x|));
    } else {
      DotConcat(u, x, y, n - 1);
      AddAssoc(Dot(u[..|x|], x, |x|), Dot(u[|x|..], y, n - 1 - |x|), Mul(u[n - 1], (x + y)[n - 1]));
    }
  }

  // ----- Combinations of rows

  /** The row x[0] * m[0] + ... + x[n-1] * m[n-1]. */
  ghost function Combine(x: Row, m: Matrix, n: nat, columns: nat): (r: Row)
    requires n <= |x| && n <= |m|
    requires forall i :: 0 <= i < |m| ==> |m[i]| == columns
    ensures |r| == columns
  {
    if n == 0 then ZeroRow(columns)
    else AddScaledRow(Combine(x, m, n - 1, columns), x[n - 1], m[n - 1])
  }

  /** (x M) d = x (M d): the exchange of summation every decoding step rests on. */
  lemma {:induction false} CombineDot(x: Row, m: Matrix, d: Row, image: Row, n: nat, columns: nat)
    requires n <= |x| && n <= |m| && n <= |image| && columns == |d|
    requires forall i :: 0 <= i < |m| ==> |m[i]| == columns
    requires forall i :: 0 <= i < n ==> image[i] == Dot(m[i], d, columns)
    ensures Dot(Combine(x, m, n, columns), d, columns) == Dot(x, image, n)
  {
    hide Add, Mul;
    if n == 0 {
      DotZero(ZeroRow(columns), d, columns);
    } else {
      CombineDot(x, m, d, image, n - 1, columns);
      DotAddScaled(Combine(x, m, n - 1, columns), x[n - 1], m[n - 1], d, columns);
    }
  }

  lemma {:induction false} CombineEntry(x: Row, m: Matrix, n: nat, columns: nat, c: nat)
    requires n <= |x| && n <= |m| && c < columns
    requires forall i :: 0 <= i < |m| ==> |m[i]| == columns
    ensures Combine(x, m, n, columns)[c] == Dot(x, Column(m, c), n)
  {
    hide Add, Mul;
    if n != 0 {
      CombineEntry(x, m, n - 1, columns, c);
    }
  }

  // ----- Kernels

  /** `v` is orthogonal to every row. */
  ghost predicate InKernel(m: Matrix, v: Row)
    requires forall r :: 0 <= r < |m| ==> |m[r]| == |v|
  {
    forall r :: 0 <= r < |m| ==> Dot(m[r], v, |v|) == Zero
  }

  ghost predicate SameKernel(a: Matrix, b: Matrix, rows: nat, columns: nat) {
    && Shaped(a, rows, columns)
    && Shaped(b, rows, columns)
    && forall v: Row | |v| == columns :: InKernel(a, v) <==> InKernel(b, v)
  }

  lemma {:induction false} SwapKeepsKernel(m: Matrix, rows: nat, columns: nat, i: nat, j: nat)
    requires Shaped(m, rows, columns) && i < rows && j < rows
    ensures SameKernel(m, m[i := m[j]][j := m[i]], rows, columns)
  {
    hide Dot;
    var m' := m[i := m[j]][j := m[i]];
    forall v: Row | |v| == columns
      ensures InKernel(m, v) <==> InKernel(m', v)
    {
      if InKernel(m', v) {
        forall r | 0 <= r < rows
          ensures Dot(m[r], v, |v|) == Zero
        {
          assert m[r] == m'[if r == i then j else if r == j then i else r];
        }
      }
    }
  }

  lemma {:induction false} ScaleKeepsKernel(m: Matrix, rows: nat, columns: nat, i: nat, scale: Byte)
    requires Shaped(m, rows, columns) && i < rows && scale != Zero
    ensures SameKernel(m, m[i := ScaleRow(scale, m[i])], rows, columns)
  {
    hide Dot, Mul;
    var m' := m[i := ScaleRow(scale, m[i])];
    forall v: Row | |v| == columns
      ensures InKernel(m, v) <==> InKernel(m', v)
    {
      DotScale(scale, m[i], v, columns);
      MulZero(scale);
      if InKernel(m', v) {
        assert Dot(m'[i], v, |v|) == Zero;
        NoZeroDivisors(scale, Dot(m[i], v, columns));
        assert forall r :: 0 <= r < rows && r != i ==> m[r] == m'[r];
      }
    }
  }

  lemma {:induction false} AddKeepsKernel(m: Matrix, rows: nat, columns: nat, i: nat, scale: Byte, j: nat)
    requires Shaped(m, rows, columns) && i < rows && j < rows && i != j
    ensures SameKernel(m, m[i := AddScaledRow(m[i], scale, m[j])], rows, columns)
  {
    hide Dot, Mul, Add;
    var m' := m[i := AddScaledRow(m[i], scale, m[j])];
    forall v: Row | |v| == columns
      ensures InKernel(m, v) <==> InKernel(m', v)
    {
      DotAddScaled(m[i], scale, m[j], v, columns);
      MulZero(scale);
      AddZero(Dot(m[i], v, columns));
      if InKernel(m', v) {
        assert Dot(m'[j], v, |v|) == Zero;
        assert Dot(m'[i], v, |v|) == Zero;
        assert forall r :: 0 <= r < rows && r != i ==> m[r] == m'[r];
      }
    }
  }

  /** No nonzero combination of the first `size` columns vanishes. */
  ghost predicate Independent(m: Matrix, size: nat, columns: nat)
    requires Shaped(m, |m|, columns) && size <= columns
  {
    forall v: Row :: InKernelOfLeft(m, v, size, columns) ==> forall j :: 0 <= j < columns ==> v[j] == Zero
  }

  ghost predicate InKernelOfLeft(m: Matrix, v: Row, size: nat, columns: nat)
    requires Shaped(m, |m|, columns) && size <= columns
  {
    && |v| == columns
    && (forall j :: size <= j < columns ==> v[j] == Zero)
    && InKernel(m, v)
  }

  ghost predicate LeftIdentity(m: Matrix, size: nat, columns: nat)
    requires Shaped(m, size, columns) && size <= columns
  {
    forall r, c :: 0 <= r < size && 0 <= c < size ==> m[r][c] == if r == c then One else Zero
  }
}
