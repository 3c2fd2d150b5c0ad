/** Byte arithmetic in GF(256), as the erasure coder computes it: bytes are bit
    polynomials reduced modulo x^8 + x^4 + x^3 + x^2 + 1 (0x11d). */
module GaloisField {

  /** A byte, least significant bit first. */
  datatype Byte = Byte(b0: bool, b1: bool, b2: bool, b3: bool, b4: bool, b5: bool, b6: bool, b7: bool)

  const Zero := Byte(false, false, false, false, false, false, false, false)
  const One := Byte(true, false, false, false, false, false, false, false)

  /** Bitwise exclusive or: addition, and subtraction, in the field. */
  function Add(a: Byte, b: Byte): Byte {
    Byte(a.b0 != b.b0, a.b1 != b.b1, a.b2 != b.b2, a.b3 != b.b3,
         a.b4 != b.b4, a.b5 != b.b5, a.b6 != b.b6, a.b7 != b.b7)
  }

  /** Shift left one bit, dropping the carry. */
  function ShiftLeft(a: Byte): Byte {
    Byte(false, a.b0, a.b1, a.b2, a.b3, a.b4, a.b5, a.b6)
  }

  /** Shift right one bit. */
  function Half(a: Byte): Byte {
    Byte(a.b1, a.b2, a.b3, a.b4, a.b5, a.b6, a.b7, false)
  }

  /** The reduction constant 0x1d. */
  const Reduction := Byte(true, false, true, true, true, false, false, false)

  /** Multiplication by x: shift, and reduce when the high bit falls off. */
  function Double(a: Byte): Byte {
    if a.b7 then Add(ShiftLeft(a), Reduction) else ShiftLeft(a)
  }

  function Gate(bit: bool, value: Byte): Byte {
    if bit then value else Zero
  }

  /** Shift-and-add multiplication over the low `bits` bits of `right`. */
  function MulBits(left: Byte, right: Byte, bits: nat): Byte
    decreases bits
  {
    if bits == 0 then Zero
    else Add(Gate(right.b0, left), MulBits(Double(left), Half(right), bits - 1))
  }

  ghost predicate IsProduct(left: Byte, right: Byte, product: Byte) {
    forall bits: nat :: bits == 8 ==> product == MulBits(left, right, bits)
  }

  /** The product over all eight bits. It is given by a property, so that only the
      lemmas that speak of `MulBits` see its bits. */
  ghost function Mul(left: Byte, right: Byte): Byte {
    assert IsProduct(left, right, MulBits(left, right, 8));
    var product :| IsProduct(left, right, product);
    product
  }

  lemma {:induction false} MulIsMulBits(left: Byte, right: Byte)
    ensures Mul(left, right) == MulBits(left, right, 8)
  {
    hide Add, Double, Half, Gate;
    assert IsProduct(left, right, Mul(left, right));
  }

  ghost function Pow(value: Byte, exponent: nat): Byte {
    if exponent == 0 then One else Mul(Pow(value, exponent - 1), value)
  }

  /** The inverse the source computes: the 254th power. */
  ghost function Inv(value: Byte): Byte {
    assert IsInverseOf(value, Pow(value, 254));
    var inverse :| IsInverseOf(value, inverse);
    inverse
  }

  ghost predicate IsInverseOf(value: Byte, inverse: Byte) {
    forall exponent: nat :: exponent == 254 ==> inverse == Pow(value, exponent)
  }

  // ----- The loops of the source

  method GfMul(left: Byte, right: Byte) returns (result: Byte)
    ensures result == Mul(left, right)
  {
    hide Add, Double, Half, Gate;
    var l, r := left, right;
    result := Zero;
    AddZero(Mul(left, right));
    var bit := 0;
    while bit < 8
      invariant 0 <= bit <= 8
      invariant Add(result, MulBits(l, r, 8 - bit)) == Mul(left, right)
    {
      AddAssoc(result, Gate(r.b0, l), MulBits(Double(l), Half(r), 8 - bit - 1));
      GateCases(r.b0, l);
      AddZero(result);
      if r.b0 {
        result := Add(result, l);
      }
      l := Double(l);
      r := Half(r);
      bit := bit + 1;
    }
    AddZero(result);
  }

  method GfPow(value: Byte, exponent: nat) returns (result: Byte)
    ensures result == Pow(value, exponent)
  {
    hide Mul;
    result := One;
    for i := 0 to exponent
      invariant result == Pow(value, i)
    {
      result := GfMul(result, value);
    }
  }

  /** Square-and-multiply; the source asserts a nonzero denominator. */
  method GfDiv(numerator: Byte, denominator: Byte) returns (result: Byte)
    requires denominator != Zero
    ensures result == Mul(numerator, Inv(denominator))
    ensures Mul(result, denominator) == numerator
  {
    hide Mul, Pow;
    Inverse(denominator);
    MulAssoc(numerator, Inv(denominator), denominator);
    MulComm(Inv(denominator), denominator);
    MulOne(numerator);
    if numerator == Zero {
      MulZero(Inv(denominator));
      return Zero;
    }
    var inverse, base, exponent := One, denominator, 254;
    MulOne(Pow(denominator, 254));
    while exponent > 0
      invariant exponent >= 0
      invariant Mul(inverse, Pow(base, exponent)) == Pow(denominator, 254)
    {
      PowOfSquare(base, exponent / 2);
      if exponent % 2 != 0 {
        PowSucc(base, exponent - 1);
        MulAssoc(inverse, base, Pow(Mul(base, base), exponent / 2));
        inverse := GfMul(inverse, base);
      }
      base := GfMul(base, base);
      exponent := exponent / 2;
    }
    PowZero(base);
    MulOne(Pow(denominator, 254));
    MulOne(inverse);
    result := GfMul(numerator, inverse);
  }

  // ----- Addition

  lemma {:induction false} AddZero(a: Byte)
    ensures Add(a, Zero) == a && Add(Zero, a) == a
  {}

  lemma {:induction false} AddSelf(a: Byte)
    ensures Add(a, a) == Zero
  {}

  lemma {:induction false} AddComm(a: Byte, b: Byte)
    ensures Add(a, b) == Add(b, a)
  {}

  lemma {:induction false} AddAssoc(a: Byte, b: Byte, c: Byte)
    ensures Add(a, Add(b, c)) == Add(Add(a, b), c)
  {}

  lemma {:induction false} AddInterchange(a: Byte, b: Byte, c: Byte, d: Byte)
    ensures Add(Add(a, b), Add(c, d)) == Add(Add(a, c), Add(b, d))
  {}

  /** Equal summands cancel. */
  lemma {:induction false} AddCancel(a: Byte, b: Byte)
    requires Add(a, b) == Zero
    ensures a == b
  {}

  // ----- One step of the multiplication loop

  lemma {:induction false} GateCases(bit: bool, value: Byte)
    ensures Gate(bit, value) == if bit then value else Zero
  {}

  lemma {:induction false} HalfAdd(a: Byte, b: Byte)
    ensures Half(Add(a, b)) == Add(Half(a), Half(b))
  {}

  lemma {:induction false} DoubleAdd(a: Byte, b: Byte)
    ensures Double(Add(a, b)) == Add(Double(a), Double(b))
  {
    hide Double;
    DoubleBits(a);
    DoubleBits(b);
    DoubleBits(Add(a, b));
  }

  lemma {:induction false} DoubleBits(a: Byte)
    ensures Double(a) == Byte(a.b7, a.b0, a.b1 != a.b7, a.b2 != a.b7, a.b3 != a.b7, a.b4, a.b5, a.b6)
  {}

  lemma {:induction false} DoubleZero()
    ensures Double(Zero) == Zero
  {}

  lemma {:induction false} GateAdd(a: Byte, b: Byte, value: Byte)
    ensures Gate(Add(a, b).b0, value) == Add(Gate(a.b0, value), Gate(b.b0, value))
  {}

  lemma {:induction false} AddGate(bit: bool, a: Byte, b: Byte)
    ensures Gate(bit, Add(a, b)) == Add(Gate(bit, a), Gate(bit, b))
  {}

  /** A byte is its low bit plus twice its half. */
  lemma {:induction false} LowBit(a: Byte)
    ensures a == Add(Gate(a.b0, One), Double(Half(a)))
  {}

  // ----- Bilinearity

  lemma {:induction false} MulBitsAddRight(left: Byte, a: Byte, b: Byte, bits: nat)
    ensures MulBits(left, Add(a, b), bits) == Add(MulBits(left, a, bits), MulBits(left, b, bits))
    decreases bits
  {
    hide Add, Double, Half, Gate;
    if bits == 0 {
      AddZero(Zero);
    } else {
      MulBitsAddRight(Double(left), Half(a), Half(b), bits - 1);
      HalfAdd(a, b);
      GateAdd(a, b, left);
      AddInterchange(Gate(a.b0, left), Gate(b.b0, left),
                     MulBits(Double(left), Half(a), bits - 1), MulBits(Double(left), Half(b), bits - 1));
    }
  }

  lemma {:induction false} MulBitsAddLeft(a: Byte, b: Byte, right: Byte, bits: nat)
    ensures MulBits(Add(a, b), right, bits) == Add(MulBits(a, right, bits), MulBits(b, right, bits))
    decreases bits
  {
    hide Add, Double, Half, Gate;
    if bits == 0 {
      AddZero(Zero);
    } else {
      MulBitsAddLeft(Double(a), Double(b), Half(right), bits - 1);
      DoubleAdd(a, b);
      AddGate(right.b0, a, b);
      AddInterchange(Gate(right.b0, a), Gate(right.b0, b),
                     MulBits(Double(a), Half(right), bits - 1), MulBits(Double(b), Half(right), bits - 1));
    }
  }

  lemma {:induction false} MulBitsDouble(left: Byte, right: Byte, bits: nat)
    ensures MulBits(Double(left), right, bits) == Double(MulBits(left, right, bits))
    decreases bits
  {
    hide Add, Double, Half, Gate;
    if bits == 0 {
      DoubleZero();
    } else {
      MulBitsDouble(Double(left), Half(right), bits - 1);
      DoubleAdd(Gate(right.b0, left), MulBits(Double(left), Half(right), bits - 1));
      GateCases(right.b0, left);
      GateCases(right.b0, Double(left));
      DoubleZero();
    }
  }

  lemma {:induction false} MulAddRight(a: Byte, b: Byte, c: Byte)
    ensures Mul(a, Add(b, c)) == Add(Mul(a, b), Mul(a, c))
  {
    hide Add, MulBits;
    MulBitsAddRight(a, b, c, 8);
  }

  lemma {:induction false} MulAddLeft(a: Byte, b: Byte, c: Byte)
    ensures Mul(Add(a, b), c) == Add(Mul(a, c), Mul(b, c))
  {
    hide Add, MulBits;
    MulBitsAddLeft(a, b, c, 8);
  }

  // ----- Units

  lemma {:induction false} MulBitsZero(value: Byte, bits: nat)
    ensures MulBits(Zero, value, bits) == Zero
    decreases bits
  {
    hide Add, Double, Half, Gate;
    if bits != 0 {
      MulBitsZero(Half(value), bits - 1);
      DoubleZero();
      GateCases(value.b0, Zero);
      AddZero(Zero);
    }
  }

  lemma {:induction false} MulBitsByZero(value: Byte, bits: nat)
    ensures MulBits(value, Zero, bits) == Zero
    decreases bits
  {
    if bits != 0 {
      MulBitsByZero(Double(value), bits - 1);
      assert Half(Zero) == Zero;
    }
  }

  lemma {:induction false} MulZero(a: Byte)
    ensures Mul(a, Zero) == Zero && Mul(Zero, a) == Zero
  {
    hide MulBits;
    MulBitsZero(a, 8);
    MulBitsByZero(a, 8);
  }

  lemma {:induction false} MulByOne(a: Byte)
    ensures Mul(a, One) == a
  {
    MulIsMulBits(a, One);
    assert Half(One) == Zero;
    MulBitsByZero(Double(a), 7);
  }

  // ----- Commutativity and associativity

  /** `a` has no bit at position `bits` or above. */
  predicate Below(a: Byte, bits: nat)
    decreases bits
  {
    if bits == 0 then a == Zero else Below(Half(a), bits - 1)
  }

  lemma {:induction false} BelowEight(a: Byte)
    ensures Below(a, 8)
  {
    var h4 := Half(Half(Half(Half(a))));
    assert Half(Half(Half(Half(h4)))) == Zero;
    assert Below(Half(Half(Half(h4))), 1);
    assert Below(Half(h4), 3);
    assert Below(Half(Half(Half(a))), 5);
    assert Below(Half(a), 7);
  }

  lemma {:induction false} MulBitsSwap(left: Byte, right: Byte, bits: nat)
    requires Below(right, bits)
    ensures MulBits(left, right, bits) == Mul(right, left)
    decreases bits
  {
    hide Add, Double, Half, Gate, Mul;
    if bits == 0 {
      MulZero(left);
    } else {
      calc {
        MulBits(left, right, bits);
        Add(Gate(right.b0, left), MulBits(Double(left), Half(right), bits - 1));
        { MulBitsDouble(left, Half(right), bits - 1); }
        Add(Gate(right.b0, left), Double(MulBits(left, Half(right), bits - 1)));
        { MulBitsSwap(left, Half(right), bits - 1); }
        Add(Gate(right.b0, left), Double(Mul(Half(right), left)));
        { DoubleLeft(Half(right), left); }
        Add(Gate(right.b0, left), Mul(Double(Half(right)), left));
        { GateLeft(right.b0, left); }
        Add(Mul(Gate(right.b0, One), left), Mul(Double(Half(right)), left));
        { MulAddLeft(Gate(right.b0, One), Double(Half(right)), left); LowBit(right); }
        Mul(right, left);
      }
    }
  }

  lemma {:induction false} DoubleLeft(left: Byte, right: Byte)
    ensures Mul(Double(left), right) == Double(Mul(left, right))
  {
    hide MulBits, Double;
    MulBitsDouble(left, right, 8);
  }

  /** One Horner step: double the accumulator and add `a` for the next bit. */
  function Step(a: Byte, bit: bool, tail: Byte): Byte {
    Byte((bit && a.b0) != tail.b7, (bit && a.b1) != tail.b0,
         (bit && a.b2) != (tail.b1 != tail.b7), (bit && a.b3) != (tail.b2 != tail.b7),
         (bit && a.b4) != (tail.b3 != tail.b7), (bit && a.b5) != tail.b4,
         (bit && a.b6) != tail.b5, (bit && a.b7) != tail.b6)
  }

  /** The product read off the bits of `b`, high bit first. */
  function Horner(a: Byte, b: Byte): Byte {
    Step(a, b.b0, Step(a, b.b1, Step(a, b.b2, Step(a, b.b3,
         Step(a, b.b4, Step(a, b.b5, Step(a, b.b6, Gate(b.b7, a))))))))
  }

  lemma {:induction false} StepIsDouble(a: Byte, bit: bool, tail: Byte)
    ensures Step(a, bit, tail) == Add(Gate(bit, a), Double(tail))
  {
    hide Double;
    DoubleBits(tail);
  }

  lemma {:induction false} MulBitsStep(a: Byte, b: Byte, bits: nat)
    ensures MulBits(a, b, bits + 1) == Step(a, b.b0, MulBits(a, Half(b), bits))
  {
    hide Add, Double, Half, Gate, Step;
    MulBitsDouble(a, Half(b), bits);
    StepIsDouble(a, b.b0, MulBits(a, Half(b), bits));
  }

  lemma {:induction false} MulIsHorner(a: Byte, b: Byte)
    ensures Mul(a, b) == Horner(a, b)
  {
    hide MulBits, Step;
    var r1 := Half(b);
    var r2 := Half(r1);
    var r3 := Half(r2);
    var r4 := Half(r3);
    var r5 := Half(r4);
    var r6 := Half(r5);
    var r7 := Half(r6);
    MulBitsStep(a, b, 7);
    MulBitsStep(a, r1, 6);
    MulBitsStep(a, r2, 5);
    MulBitsStep(a, r3, 4);
    MulBitsStep(a, r4, 3);
    MulBitsStep(a, r5, 2);
    MulBitsStep(a, r6, 1);
    MulBitsLast(a, r7);
  }

  lemma {:induction false} MulBitsLast(a: Byte, b: Byte)
    ensures MulBits(a, b, 1) == Gate(b.b0, a)
  {
    hide Add, Gate;
    AddZero(Gate(b.b0, a));
    assert MulBits(Double(a), Half(b), 0) == Zero;
  }

  lemma {:induction false} OneLeft(a: Byte)
    ensures Mul(One, a) == a
  {
    MulIsHorner(One, a);
  }

  lemma {:induction false} GateLeft(bit: bool, value: Byte)
    ensures Gate(bit, value) == Mul(Gate(bit, One), value)
  {
    hide Mul;
    if bit {
      OneLeft(value);
    } else {
      MulZero(value);
    }
  }

  lemma {:induction false} MulComm(a: Byte, b: Byte)
    ensures Mul(a, b) == Mul(b, a)
  {
    hide MulBits, Below;
    BelowEight(b);
    MulBitsSwap(a, b, 8);
  }

  lemma {:induction false} MulOne(a: Byte)
    ensures Mul(a, One) == a && Mul(One, a) == a
  {
    hide Mul;
    MulByOne(a);
    MulComm(a, One);
  }

  lemma {:induction false} MulBitsAssoc(a: Byte, b: Byte, c: Byte, bits: nat)
    ensures Mul(a, MulBits(b, c, bits)) == MulBits(Mul(a, b), c, bits)
    decreases bits
  {
    hide Add, Double, Half, Gate, Mul;
    if bits == 0 {
      MulZero(a);
    } else {
      MulBitsAssoc(a, Double(b), Half(c), bits - 1);
      MulAddRight(a, Gate(c.b0, b), MulBits(Double(b), Half(c), bits - 1));
      DoubleRight(a, b);
      GateCases(c.b0, b);
      GateCases(c.b0, Mul(a, b));
      MulZero(a);
    }
  }

  lemma {:induction false} DoubleRight(a: Byte, b: Byte)
    ensures Mul(a, Double(b)) == Double(Mul(a, b))
  {
    hide Mul, Double;
    MulComm(a, Double(b));
    DoubleLeft(b, a);
    MulComm(b, a);
  }

  lemma {:induction false} MulAssoc(a: Byte, b: Byte, c: Byte)
    ensures Mul(a, Mul(b, c)) == Mul(Mul(a, b), c)
  {
    hide MulBits;
    MulBitsAssoc(a, b, c, 8);
  }

  // ----- Powers and inverses

  lemma {:induction false} PowZero(value: Byte)
    ensures Pow(value, 0) == One
  {}

  lemma {:induction false} PowSucc(value: Byte, exponent: nat)
    ensures Pow(value, exponent + 1) == Mul(value, Pow(value, exponent))
  {
    hide Mul;
    MulComm(value, Pow(value, exponent));
  }

  lemma {:induction false} PowAdd(value: Byte, m: nat, n: nat)
    ensures Pow(value, m + n) == Mul(Pow(value, m), Pow(value, n))
    decreases n
  {
    hide Mul;
    if n == 0 {
      MulOne(Pow(value, m));
    } else {
      PowAdd(value, m, n - 1);
      MulAssoc(Pow(value, m), Pow(value, n - 1), value);
      assert Pow(value, m + n) == Mul(Pow(value, m + n - 1), value);
    }
  }

  lemma {:induction false} PowOfPow(value: Byte, m: nat, n: nat)
    ensures Pow(Pow(value, m), n) == Pow(value, m * n)
    decreases n
  {
    hide Mul;
    if n == 0 {
    } else {
      PowOfPow(value, m, n - 1);
      PowAdd(value, m * (n - 1), m);
      assert m * (n - 1) + m == m * n;
    }
  }

  lemma {:induction false} PowOfSquare(value: Byte, n: nat)
    ensures Pow(Mul(value, value), n) == Pow(value, 2 * n)
  {
    hide Mul;
    PowTwo(value);
    PowOfPow(value, 2, n);
  }

  lemma {:induction false} PowTwo(value: Byte)
    ensures Pow(value, 2) == Mul(value, value)
  {
    hide Mul;
    assert Pow(value, 1) == Mul(Pow(value, 0), value);
    MulOne(value);
  }

  /** Squaring is linear over the bits. */
  function Square(a: Byte): Byte {
    Byte((((a.b0 != a.b4) != a.b6) != a.b7), a.b7, (((a.b1 != a.b4) != a.b5) != a.b6), (a.b4 != a.b6), (((a.b2 != a.b4) != a.b5) != a.b7), a.b5, ((a.b3 != a.b5) != a.b6), a.b6)
  }

  /** The fourth and sixteenth powers, likewise. */
  function Fourth(a: Byte): Byte {
    Byte((a.b0 != (a.b2 != (a.b3 != a.b6))), a.b6, (a.b2 != (a.b3 != (a.b4 != (a.b5 != a.b6)))), (a.b2 != (a.b3 != (a.b4 != (a.b6 != a.b7)))), (a.b1 != (a.b2 != (a.b5 != a.b7))), a.b5, (a.b3 != a.b4), (a.b3 != (a.b5 != a.b6)))
  }

  function Sixteenth(a: Byte): Byte {
    Byte((((((a.b0 != a.b2) != a.b4) != a.b5) != a.b6) != a.b7), (a.b3 != a.b4), ((((a.b1 != a.b2) != a.b3) != a.b4) != a.b5), ((((a.b1 != a.b2) != a.b4) != a.b5) != a.b6), (((a.b2 != a.b4) != a.b5) != a.b6), a.b5, ((((a.b1 != a.b3) != a.b4) != a.b5) != a.b6), (((a.b2 != a.b5) != a.b6) != a.b7))
  }

  lemma {:induction false} FourthIsSquares(a: Byte)
    ensures Fourth(a) == Square(Square(a))
  {}

  lemma {:induction false} SixteenthIsFourths(a: Byte)
    ensures Sixteenth(a) == Fourth(Fourth(a))
  {}

  lemma {:induction false} SixteenthIsSquares(a: Byte)
    ensures Sixteenth(a) == Square(Square(Square(Square(a))))
  {
    hide Sixteenth, Fourth, Square;
    SixteenthIsFourths(a);
    FourthIsSquares(a);
    FourthIsSquares(Fourth(a));
  }

  lemma {:induction false} SixteenthTwice(a: Byte)
    ensures Sixteenth(Sixteenth(a)) == a
  {}

  lemma {:induction false} SquareStep(a: Byte)
    ensures Square(a) == Add(Gate(a.b0, One), Double(Double(Square(Half(a)))))
  {
    hide Double;
    DoubleBits(Square(Half(a)));
    DoubleBits(Double(Square(Half(a))));
  }

  lemma {:induction false} SquareIsMulBelow(a: Byte, bits: nat)
    requires Below(a, bits)
    ensures Mul(a, a) == Square(a)
    decreases bits
  {
    hide Mul, Square, Add, Double, Half, Gate;
    if bits == 0 {
      MulZero(Zero);
      SquareZero();
    } else {
      var low, half := Gate(a.b0, One), Half(a);
      var high := Double(half);
      SquareIsMulBelow(half, bits - 1);
      LowBit(a);
      SquareStep(a);
      MulAddLeft(low, high, a);
      MulAddRight(low, low, high);
      MulAddRight(high, low, high);
      MulComm(low, high);
      CrossTerms(Mul(low, low), Mul(low, high), Mul(high, high));
      GateCases(a.b0, One);
      MulOne(One);
      MulZero(Zero);
      DoubleLeft(half, high);
      DoubleRight(half, half);
    }
  }

  lemma {:induction false} CrossTerms(a: Byte, cross: Byte, b: Byte)
    ensures Add(Add(a, cross), Add(cross, b)) == Add(a, b)
  {}

  lemma {:induction false} SquareZero()
    ensures Square(Zero) == Zero
  {}

  lemma {:induction false} SquareIsMul(a: Byte)
    ensures Mul(a, a) == Square(a)
  {
    hide Mul, Square, Below;
    BelowEight(a);
    SquareIsMulBelow(a, 8);
  }

  lemma {:induction false} SquarePow(a: Byte, n: nat)
    ensures Square(Pow(a, n)) == Pow(a, 2 * n)
  {
    hide Mul, Square;
    SquareIsMul(Pow(a, n));
    PowAdd(a, n, n);
  }

  lemma {:induction false} SquareOfProduct(a: Byte, b: Byte)
    ensures Square(Mul(a, b)) == Mul(Square(a), Square(b))
  {
    hide Mul, Square;
    SquareIsMul(a);
    SquareIsMul(b);
    SquareIsMul(Mul(a, b));
    MulAssoc(Mul(a, b), a, b);
    MulComm(Mul(a, b), a);
    MulAssoc(a, a, b);
    MulAssoc(Mul(a, a), b, b);
  }

  /** a^17 lies in the sixteen-element subfield ... */
  lemma {:induction false} NormInSubfield(a: Byte)
    ensures Sixteenth(Mul(a, Sixteenth(a))) == Mul(a, Sixteenth(a))
  {
    hide Mul, Square, Sixteenth;
    var c := Sixteenth(a);
    SixteenthTwice(a);
    SixteenthIsSquares(Mul(a, c));
    SixteenthIsSquares(a);
    SixteenthIsSquares(c);
    SquareOfProduct(a, c);
    SquareOfProduct(Square(a), Square(c));
    SquareOfProduct(Square(Square(a)), Square(Square(c)));
    SquareOfProduct(Square(Square(Square(a))), Square(Square(Square(c))));
    MulComm(a, c);
  }

  /** ... and is zero only for zero. */
  lemma {:induction false} NormNonzero(a: Byte)
    requires a != Zero
    ensures Horner(a, Sixteenth(a)) != Zero
  {}

  /** Likewise the fifth power of a sixteen-element-subfield byte lies in the
      four-element subfield ... */
  lemma {:induction false} SubfieldNorm(b: Byte)
    requires Sixteenth(b) == b
    ensures Fourth(Mul(b, Fourth(b))) == Mul(b, Fourth(b))
  {
    hide Mul, Square, Fourth, Sixteenth;
    var c := Fourth(b);
    SixteenthIsFourths(b);
    FourthIsSquares(Mul(b, c));
    FourthIsSquares(b);
    FourthIsSquares(c);
    SquareOfProduct(b, c);
    SquareOfProduct(Square(b), Square(c));
    MulComm(b, c);
  }

  /** ... and is zero only for zero. */
  lemma {:induction false} SubfieldNormNonzero(b: Byte)
    requires Sixteenth(b) == b && b != Zero
    ensures Horner(b, Fourth(b)) != Zero
  {}

  lemma {:induction false} SubfieldCube(b: Byte)
    requires Fourth(b) == b != Zero
    ensures Horner(b, Square(b)) == One
  {}

  /** Every nonzero byte has order dividing 255, so its 254th power inverts it. */
  lemma {:induction false} Inverse(a: Byte)
    requires a != Zero
    ensures Mul(a, Inv(a)) == One
  {
    hide Mul, Square, Fourth, Sixteenth, Horner, Pow;
    PowSucc(a, 254);
    PowOne(a);
    SquarePow(a, 1);
    SquarePow(a, 2);
    SquarePow(a, 4);
    SquarePow(a, 8);
    PowAdd(a, 1, 16);
    var b := Pow(a, 17);
    SixteenthIsSquares(a);
    MulIsHorner(a, Sixteenth(a));
    NormInSubfield(a);
    NormNonzero(a);
    PowOne(b);
    SquarePow(b, 1);
    SquarePow(b, 2);
    FourthIsSquares(b);
    PowAdd(b, 1, 4);
    MulIsHorner(b, Fourth(b));
    SubfieldNorm(b);
    SubfieldNormNonzero(b);
    var c := Pow(b, 5);
    PowOne(c);
    SquarePow(c, 1);
    PowAdd(c, 1, 2);
    MulIsHorner(c, Square(c));
    SubfieldCube(c);
    PowOfPow(b, 5, 3);
    PowOfPow(a, 17, 15);
  }

  lemma {:induction false} PowOne(value: Byte)
    ensures Pow(value, 1) == value
  {
    hide Mul;
    assert Pow(value, 1) == Mul(Pow(value, 0), value);
    MulOne(value);
  }

  lemma {:induction false} NoZeroDivisors(a: Byte, b: Byte)
    requires Mul(a, b) == Zero
    ensures a == Zero || b == Zero
  {
    hide Mul, Inv;
    if a != Zero {
      Inverse(a);
      MulComm(a, Inv(a));
      MulAssoc(Inv(a), a, b);
      MulOne(b);
      MulZero(Inv(a));
    }
  }
}
