/** Vandermonde rows over GF(256): any `k` distinct points give `k` independent
    rows of width `k`, seen from both sides. */
module Vandermonde {
  import opened Options
  import opened GaloisField
  import opened Matrices

  predicate BitSet(n: nat, i: nat)
    decreases i
  {
    if i == 0 then n % 2 == 1 else BitSet(n / 2, i - 1)
  }

  /** The low eight bits of an index, as the source's cast to a byte. */
  function ToByte(n: nat): Byte {
    Byte(BitSet(n, 0), BitSet(n, 1), BitSet(n, 2), BitSet(n, 3), BitSet(n, 4), BitSet(n, 5), BitSet(n, 6), BitSet(n, 7))
  }

  lemma {:induction false} BitsDetermine(m: nat, n: nat, k: nat)
    requires m < TwoToThe(k) && n < TwoToThe(k)
    requires forall i :: 0 <= i < k ==> BitSet(m, i) == BitSet(n, i)
    ensures m == n
    decreases k
  {
    if k > 0 {
      assert BitSet(m, 0) == BitSet(n, 0);
      forall i | 0 <= i < k - 1
        ensures BitSet(m / 2, i) == BitSet(n / 2, i)
      {
        assert BitSet(m, i + 1) == BitSet(n, i + 1);
      }
      BitsDetermine(m / 2, n / 2, k - 1);
    }
  }

  lemma {:induction false} ToByteInjective(m: nat, n: nat)
    requires m < 256 && n < 256 && ToByte(m) == ToByte(n)
    ensures m == n
  {
    hide BitSet;
    assert TwoToThe(8) == 256;
    forall i | 0 <= i < 8
      ensures BitSet(m, i) == BitSet(n, i)
    {
      assert i == 0 || i == 1 || i == 2 || i == 3 || i == 4 || i == 5 || i == 6 || i == 7;
    }
    BitsDetermine(m, n, 8);
  }

  // ----- Bytes as numbers

  lemma {:induction false} BitOfQuotient(n: nat, k: nat)
    ensures BitSet(n, k) <==> (n / TwoToThe(k)) % 2 == 1
    decreases k
  {
    if k > 0 {
      BitOfQuotient(n / 2, k - 1);
      QuotientOfHalf(n, TwoToThe(k - 1));
    }
  }

  lemma {:induction false} QuotientOfHalf(n: nat, m: nat)
    requires m > 0
    ensures n / (2 * m) == (n / 2) / m
  {
    var half := n / 2;
    DividesAs(n, 2 * m, half / m, n % 2 + 2 * (half % m));
  }

  lemma {:induction false} DividesAs(n: nat, m: nat, quotient: nat, rest: nat)
    requires rest < m && n == quotient * m + rest
    ensures n / m == quotient && n % m == rest
  {
    var q := n / m;
    if q > quotient {
      Multiple(q - quotient, m);
    } else if q < quotient {
      Multiple(quotient - q, m);
    }
  }

  lemma {:induction false} Multiple(d: nat, m: nat)
    requires d > 0
    ensures d * m >= m
  {}

  /** Each bit of the cast is the digit of its weight. */
  lemma {:induction false} ToByteDigits(n: nat)
    ensures var b := ToByte(n);
            && (b.b0 <==> n % 2 == 1) && (b.b1 <==> n / 2 % 2 == 1)
            && (b.b2 <==> n / 4 % 2 == 1) && (b.b3 <==> n / 8 % 2 == 1)
            && (b.b4 <==> n / 16 % 2 == 1) && (b.b5 <==> n / 32 % 2 == 1)
            && (b.b6 <==> n / 64 % 2 == 1) && (b.b7 <==> n / 128 % 2 == 1)
  {
    hide BitSet;
    forall k | 0 <= k < 8 ensures BitSet(n, k) <==> (n / TwoToThe(k)) % 2 == 1 {
      BitOfQuotient(n, k);
    }
    assert TwoToThe(0) == 1 && TwoToThe(1) == 2 && TwoToThe(2) == 4 && TwoToThe(3) == 8;
    assert TwoToThe(4) == 16 && TwoToThe(5) == 32 && TwoToThe(6) == 64 && TwoToThe(7) == 128;
  }

  function Bit(b: bool): nat { if b then 1 else 0 }

  /** The number a byte stands for. */
  function NumberOf(b: Byte): nat {
    Weighted(Bit(b.b0), Bit(b.b1), Bit(b.b2), Bit(b.b3), Bit(b.b4), Bit(b.b5), Bit(b.b6), Bit(b.b7))
  }

  function Weighted(d0: nat, d1: nat, d2: nat, d3: nat, d4: nat, d5: nat, d6: nat, d7: nat): nat {
    d0 + 2 * d1 + 4 * d2 + 8 * d3 + 16 * d4 + 32 * d5 + 64 * d6 + 128 * d7
  }

  function Digit(n: nat, weight: nat): nat
    requires weight > 0
  {
    n / weight % 2
  }

  function Remainder(n: nat, m: nat): nat
    requires m > 0
  {
    n % m
  }

  lemma {:induction false} RemainderGrows(n: nat, m: nat)
    requires m > 0
    ensures Remainder(n, 2 * m) == Remainder(n, m) + m * Digit(n, m)
  {
    var q := n / m;
    DividesAs(n, 2 * m, q / 2, n % m + m * (q % 2));
  }

  lemma {:induction false} NoRemainder(n: nat)
    ensures Remainder(n, 1) == 0 && Remainder(n, 256) == n % 256
  {}

  lemma {:induction false} BitGrows(n: nat, k: nat, weight: nat)
    requires weight == TwoToThe(k)
    ensures Remainder(n, 2 * weight) == Remainder(n, weight) + weight * Bit(BitSet(n, k))
  {
    BitOfQuotient(n, k);
    RemainderGrows(n, weight);
  }

  lemma {:induction false} Weights()
    ensures TwoToThe(0) == 1 && TwoToThe(1) == 2 && TwoToThe(2) == 4 && TwoToThe(3) == 8
    ensures TwoToThe(4) == 16 && TwoToThe(5) == 32 && TwoToThe(6) == 64 && TwoToThe(7) == 128
  {}

  lemma {:induction false} EightBits(n: nat)
    ensures Remainder(n, 256) == Weighted(Bit(BitSet(n, 0)), Bit(BitSet(n, 1)), Bit(BitSet(n, 2)), Bit(BitSet(n, 3)),
                                          Bit(BitSet(n, 4)), Bit(BitSet(n, 5)), Bit(BitSet(n, 6)), Bit(BitSet(n, 7)))
  {
    hide BitSet, Bit, Remainder;
    LowBits(n);
    HighBits(n);
  }

  lemma {:induction false} LowBits(n: nat)
    ensures Remainder(n, 16) == Bit(BitSet(n, 0)) + 2 * Bit(BitSet(n, 1)) + 4 * Bit(BitSet(n, 2)) + 8 * Bit(BitSet(n, 3))
  {
    hide BitSet, Bit, Remainder, TwoToThe;
    NoRemainder(n);
    Weights();
    BitGrows(n, 0, 1);
    BitGrows(n, 1, 2);
    BitGrows(n, 2, 4);
    BitGrows(n, 3, 8);
  }

  lemma {:induction false} HighBits(n: nat)
    ensures Remainder(n, 256) == Remainder(n, 16) + 16 * Bit(BitSet(n, 4)) + 32 * Bit(BitSet(n, 5))
                                 + 64 * Bit(BitSet(n, 6)) + 128 * Bit(BitSet(n, 7))
  {
    hide BitSet, Bit, Remainder, TwoToThe;
    Weights();
    BitGrows(n, 4, 16);
    BitGrows(n, 5, 32);
    BitGrows(n, 6, 64);
    BitGrows(n, 7, 128);
  }

  /** The cast keeps the number modulo 256. */
  lemma {:induction false} ToByteNumber(n: nat)
    ensures NumberOf(ToByte(n)) == n % 256
  {
    hide BitSet, Bit, Remainder, Weighted;
    NoRemainder(n);
    EightBits(n);
  }

  lemma {:induction false} BitOfTwice(n: nat, odd: nat, i: nat)
    requires odd < 2
    ensures BitSet(2 * n + odd, i) == if i == 0 then odd == 1 else BitSet(n, i - 1)
  {}

  /** The cast takes twice a number to the shifted byte and the next number to its
      sum with one. */
  lemma {:induction false} ToByteOfTwice(n: nat)
    ensures ToByte(0) == Zero && ToByte(1) == One
    ensures ToByte(2 * n) == ShiftLeft(ToByte(n))
    ensures ToByte(2 * n + 1) == Add(ShiftLeft(ToByte(n)), One)
  {
    forall i | 0 <= i < 8 ensures !BitSet(0, i) {
      BitOfZero(i);
    }
    hide BitSet;
    forall i | 0 <= i < 8
      ensures BitSet(2 * n, i) == if i == 0 then false else BitSet(n, i - 1)
      ensures BitSet(2 * n + 1, i) == if i == 0 then true else BitSet(n, i - 1)
      ensures BitSet(1, i) == if i == 0 then true else BitSet(0, i - 1)
    {
      BitOfTwice(n, 0, i);
      BitOfTwice(n, 1, i);
      BitOfTwice(0, 1, i);
    }
  }

  lemma {:induction false} BitOfZero(i: nat)
    ensures !BitSet(0, i)
  {
    if i > 0 {
      BitOfZero(i - 1);
    }
  }

  /** Doubling in the field doubles the number and takes the polynomial 0x11d off
      again when a bit falls out. */
  lemma {:induction false} DoubleOfNumber(n: nat)
    requires n < 256
    ensures Double(ToByte(n)) == if n < 128 then ToByte(2 * n) else Add(ToByte(2 * n), ToByte(0x1d))
  {
    ToByteOfTwice(n);
    ToByteDigits(n);
    ReductionNumber();
    hide ToByte, BitSet, ShiftLeft, Add;
  }

  lemma {:induction false} ReductionNumber()
    ensures Reduction == ToByte(0x1d)
  {
    ToByteDigits(0x1d);
  }

  /** Exclusive or of numbers. */
  function Xor(m: nat, n: nat): nat
    decreases m + n
  {
    if m == 0 then n else if n == 0 then m
    else 2 * Xor(m / 2, n / 2) + if m % 2 == n % 2 then 0 else 1
  }

  lemma {:induction false} BitOfXor(m: nat, n: nat, i: nat)
    ensures BitSet(Xor(m, n), i) == (BitSet(m, i) != BitSet(n, i))
    decreases i
  {
    if m == 0 || n == 0 {
      BitOfZero(i);
    } else {
      BitOfTwice(Xor(m / 2, n / 2), if m % 2 == n % 2 then 0 else 1, i);
      if i > 0 {
        BitOfXor(m / 2, n / 2, i - 1);
      }
    }
  }

  /** Addition in the field is the exclusive or of the numbers. */
  lemma {:induction false} AddOfNumbers(m: nat, n: nat)
    ensures Add(ToByte(m), ToByte(n)) == ToByte(Xor(m, n))
  {
    hide BitSet;
    forall i | 0 <= i < 8 ensures BitSet(Xor(m, n), i) == (BitSet(m, i) != BitSet(n, i)) {
      BitOfXor(m, n, i);
    }
  }

  ghost function Powers(x: Byte, n: nat): (r: Row)
    ensures |r| == n
  {
    seq(n, (j: nat) => Pow(x, j))
  }

  /** One row per point. */
  ghost function PowerRows(xs: seq<Byte>, n: nat): (m: Matrix)
    ensures Shaped(m, |xs|, n)
  {
    seq(|xs|, i requires 0 <= i < |xs| => Powers(xs[i], n))
  }

  // ----- Polynomials, lowest coefficient first

  ghost function Eval(p: Row, x: Byte): Byte {
    if |p| == 0 then Zero else Add(p[0], Mul(x, Eval(p[1..], x)))
  }

  lemma {:induction false} EvalSnoc(p: Row, c: Byte, x: Byte)
    ensures Eval(p + [c], x) == Add(Eval(p, x), Mul(Pow(x, |p|), c))
  {
    hide Add, Mul;
    if |p| == 0 {
      assert (p + [c])[1..] == [];
      MulZero(x);
      MulOne(c);
      AddComm(c, Zero);
    } else {
      var tail := p[1..];
      assert (p + [c])[1..] == tail + [c];
      EvalSnoc(tail, c, x);
      MulAddRight(x, Eval(tail, x), Mul(Pow(x, |tail|), c));
      MulAssoc(x, Pow(x, |tail|), c);
      PowSucc(x, |tail|);
      AddAssoc(p[0], Mul(x, Eval(tail, x)), Mul(Pow(x, |p|), c));
    }
  }

  /** Evaluation is the dot product with a Vandermonde row. */
  lemma {:induction false} EvalIsDot(p: Row, x: Byte, n: nat)
    requires |p| <= n
    ensures Eval(p, x) == Dot(Powers(x, n), p, |p|)
    decreases |p|
  {
    hide Add, Mul, Pow;
    if |p| != 0 {
      var init, last := p[..|p| - 1], p[|p| - 1];
      assert p == init + [last];
      EvalSnoc(init, last, x);
      EvalIsDot(init, x, n);
      DotAgree(Powers(x, n), Powers(x, n), init, p, |p| - 1);
    }
  }

  lemma {:induction false} EvalAddScaled(p: Row, c: Byte, q: Row, x: Byte)
    requires |p| == |q|
    ensures Eval(AddScaledRow(p, c, q), x) == Add(Eval(p, x), Mul(c, Eval(q, x)))
    decreases |p|
  {
    hide Add, Mul;
    var n := |p|;
    EvalIsDot(AddScaledRow(p, c, q), x, n);
    EvalIsDot(p, x, n);
    EvalIsDot(q, x, n);
    DotComm(Powers(x, n), AddScaledRow(p, c, q), n);
    DotComm(Powers(x, n), p, n);
    DotComm(Powers(x, n), q, n);
    DotAddScaled(p, c, q, Powers(x, n), n);
  }

  /** The coefficients of (X + a) p. */
  ghost function TimesLinear(p: Row, a: Byte): (r: Row)
    ensures |r| == |p| + 1
  {
    AddScaledRow([Zero] + p, a, p + [Zero])
  }

  lemma {:induction false} EvalTimesLinear(p: Row, a: Byte, x: Byte)
    ensures Eval(TimesLinear(p, a), x) == Mul(Add(x, a), Eval(p, x))
  {
    hide Add, Mul;
    EvalAddScaled([Zero] + p, a, p + [Zero], x);
    assert ([Zero] + p)[1..] == p;
    AddZero(Mul(x, Eval(p, x)));
    EvalSnoc(p, Zero, x);
    MulZero(Pow(x, |p|));
    AddZero(Eval(p, x));
    MulAddLeft(x, a, Eval(p, x));
  }

  /** The monic polynomial with the given roots. */
  ghost function FromRoots(roots: seq<Byte>): (p: Row)
    ensures |p| == |roots| + 1
  {
    if |roots| == 0 then [One] else TimesLinear(FromRoots(roots[1..]), roots[0])
  }

  lemma {:induction false} EvalFromRoots(roots: seq<Byte>, x: Byte)
    ensures Eval(FromRoots(roots), x) == Zero <==> x in roots
  {
    hide Add, Mul;
    if |roots| == 0 {
      assert FromRoots(roots)[1..] == [];
      MulZero(x);
      AddZero(One);
    } else {
      EvalTimesLinear(FromRoots(roots[1..]), roots[0], x);
      EvalFromRoots(roots[1..], x);
      AddSelf(x);
      MulZero(Add(x, roots[0]));
      MulZero(Eval(FromRoots(roots[1..]), x));
      if Eval(FromRoots(roots), x) == Zero {
        NoZeroDivisors(Add(x, roots[0]), Eval(FromRoots(roots[1..]), x));
        if Add(x, roots[0]) == Zero {
          AddCancel(x, roots[0]);
        }
      }
      assert roots == [roots[0]] + roots[1..];
    }
  }

  // ----- No nonzero combination of rows at distinct points vanishes

  lemma {:induction false} DotSingle(u: Row, v: Row, n: nat, at: nat)
    requires n <= |u| && n <= |v| && at < n
    requires forall i :: 0 <= i < n && i != at ==> v[i] == Zero
    ensures Dot(u, v, n) == Mul(u[at], v[at])
  {
    hide Add, Mul;
    if at == n - 1 {
      DotComm(u, v, n - 1);
      DotZero(v, u, n - 1);
      AddZero(Mul(u[at], v[at]));
    } else {
      DotSingle(u, v, n - 1, at);
      MulZero(u[n - 1]);
      AddZero(Mul(u[at], v[at]));
    }
  }

  /** The polynomial through all points but one. */
  ghost function OtherRoots(xs: seq<Byte>, at: nat): (p: Row)
    requires at < |xs|
    ensures |p| == |xs|
  {
    FromRoots(xs[..at] + xs[at + 1..])
  }

  lemma {:induction false} EvalOtherRoots(xs: seq<Byte>, at: nat, i: nat)
    requires NoRepeats(xs) && at < |xs| && i < |xs|
    ensures Eval(OtherRoots(xs, at), xs[i]) == Zero <==> i != at
  {
    hide Eval, FromRoots;
    var roots := xs[..at] + xs[at + 1..];
    EvalFromRoots(roots, xs[i]);
    if i != at {
      assert roots[if i < at then i else i - 1] == xs[i];
    } else {
      assert forall k :: 0 <= k < |roots| ==> roots[k] == xs[if k < at then k else k + 1];
    }
  }

  lemma {:induction false} RowsIndependent(xs: seq<Byte>, u: Row, at: nat)
    requires NoRepeats(xs) && |u| == |xs| && at < |xs|
    requires forall j :: 0 <= j < |xs| ==> Combine(u, PowerRows(xs, |xs|), |xs|, |xs|)[j] == Zero
    ensures u[at] == Zero
  {
    hide Add, Mul, Pow, Dot, Combine, Eval, OtherRoots, NoRepeats, Powers;
    var n := |xs|;
    var m := PowerRows(xs, n);
    var p := OtherRoots(xs, at);
    var image := seq(n, i requires 0 <= i < n => Dot(m[i], p, n));
    CombineDot(u, m, p, image, n, n);
    DotZero(Combine(u, m, n, n), p, n);
    forall i | 0 <= i < n
      ensures image[i] == Zero <==> i != at
    {
      EvalIsDot(p, xs[i], n);
      EvalOtherRoots(xs, at, i);
    }
    DotSingle(u, image, n, at);
    NoZeroDivisors(u[at], image[at]);
  }

  // ----- No nonzero polynomial of degree below n has n distinct roots

  /** Synthetic division by X + a. */
  ghost function Quotient(p: Row, a: Byte): (q: Row)
    requires |p| > 0
    ensures |q| == |p| - 1
  {
    if |p| == 1 then [] else [Eval(p[1..], a)] + Quotient(p[1..], a)
  }

  lemma {:induction false} EvalQuotient(p: Row, a: Byte, x: Byte)
    requires |p| > 0
    ensures Eval(p, x) == Add(Mul(Add(x, a), Eval(Quotient(p, a), x)), Eval(p, a))
  {
    hide Add, Mul;
    if |p| == 1 {
      assert Eval(p[1..], x) == Zero && Eval(p[1..], a) == Zero;
      MulZero(x);
      MulZero(a);
      MulZero(Add(x, a));
      AddZero(Eval(p, a));
    } else {
      var rest := p[1..];
      var q := Quotient(rest, a);
      EvalQuotient(rest, a, x);
      assert Quotient(p, a)[1..] == q;
      DivisionStep(p[0], x, a, Eval(q, x), Eval(rest, a));
    }
  }

  /** c + x((x + a)q + s) = (x + a)(s + xq) + (c + as). */
  lemma {:induction false} DivisionStep(c: Byte, x: Byte, a: Byte, q: Byte, s: Byte)
    ensures Add(c, Mul(x, Add(Mul(Add(x, a), q), s)))
            == Add(Mul(Add(x, a), Add(s, Mul(x, q))), Add(c, Mul(a, s)))
  {
    hide Add, Mul;
    var y := Add(x, a);
    var cross := Mul(y, Mul(x, q));
    MulAddRight(x, Mul(y, q), s);
    MulAssoc(x, y, q);
    MulComm(x, y);
    MulAssoc(y, x, q);
    MulAddRight(y, s, Mul(x, q));
    MulAddLeft(x, a, s);
    DivisionSum(c, cross, Mul(x, s), Mul(a, s));
  }

  lemma {:induction false} DivisionSum(c: Byte, cross: Byte, xs: Byte, as_: Byte)
    ensures Add(c, Add(cross, xs)) == Add(Add(Add(xs, as_), cross), Add(c, as_))
  {
    hide Add;
    AddComm(cross, xs);
    AddComm(c, Add(xs, cross));
    AddAssoc(xs, as_, cross);
    AddComm(as_, cross);
    AddAssoc(xs, cross, as_);
    AddComm(c, as_);
    CrossTerms(Add(xs, cross), as_, c);
  }

  ghost predicate AllZero(p: Row) {
    forall i :: 0 <= i < |p| ==> p[i] == Zero
  }

  lemma {:induction false} QuotientZero(p: Row, a: Byte)
    requires |p| > 0 && AllZero(Quotient(p, a)) && Eval(p, a) == Zero
    ensures AllZero(p)
  {
    hide Add, Mul;
    MulZero(a);
    AddZero(p[0]);
    if |p| > 1 {
      var rest := p[1..];
      assert Quotient(p, a)[0] == Eval(rest, a);
      forall i | 0 <= i < |rest| - 1
        ensures Quotient(rest, a)[i] == Zero
      {
        assert Quotient(p, a)[i + 1] == Quotient(rest, a)[i];
      }
      QuotientZero(rest, a);
      assert forall i :: 1 <= i < |p| ==> p[i] == rest[i - 1];
    }
  }

  lemma {:induction false} FewRoots(p: Row, xs: seq<Byte>)
    requires |p| == |xs| && NoRepeats(xs)
    requires forall i :: 0 <= i < |xs| ==> Eval(p, xs[i]) == Zero
    ensures AllZero(p)
    decreases |xs|
  {
    hide Add, Mul, Eval, Quotient;
    if |xs| > 0 {
      var a, rest := xs[0], xs[1..];
      var q := Quotient(p, a);
      forall i | 0 <= i < |rest|
        ensures Eval(q, rest[i]) == Zero
      {
        assert rest[i] == xs[i + 1];
        EvalQuotient(p, a, rest[i]);
        AddZero(Mul(Add(rest[i], a), Eval(q, rest[i])));
        NoZeroDivisors(Add(rest[i], a), Eval(q, rest[i]));
        if Add(rest[i], a) == Zero {
          AddCancel(rest[i], a);
        }
      }
      FewRoots(q, rest);
      QuotientZero(p, a);
    }
  }
}
