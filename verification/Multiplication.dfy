/** float32_mul against roundTiesToEven of the exact product. */
module Multiplication {
  import opened Basics
  import opened Powers
  import opened Shifts
  import opened Binary32
  import opened Rounding
  import LeadingZeros

  lemma NormalizedRange(m: nat, zeroes: nat)
    requires 0 < m && zeroes <= 24 && m < Pow2(24 - zeroes)
    requires zeroes < 24 ==> Pow2(23 - zeroes) <= m
    ensures zeroes <= 23 && 0x80_0000 <= Shl(m, zeroes) < 0x100_0000
  {
    assert Pow2(0) == 1;
    Pow2Values();
    ShlOrder(m, Pow2(24 - zeroes), zeroes);
    ShlOrder(m, Pow2(23 - zeroes), zeroes);
    ShlOfPow2(24 - zeroes, zeroes);
    ShlOfPow2(23 - zeroes, zeroes);
  }

  /** The operand as a 24-bit significand with its leading bit set. */
  method NormalizeOperand(f: word) returns (mant: nat, exp: int)
    requires IsFinite(f) && !IsZero(f)
    ensures 0x80_0000 <= mant < 0x100_0000 && -22 <= exp <= 254
    ensures Shl(FiniteValue(f), 23) == Shl(mant, exp + 22)
  {
    UnsignedFields(f);
    mant := Fraction(f);
    exp := Exponent(f);
    if IsNormal(f) {
      mant := mant + 0x80_0000;
      ShlShl(mant, Exponent(f) - 1, 23);
    }
    if IsDenormal(f) {
      Pow2Values();
      var leftShifts := LeadingZeros.LeadingZeroes(mant, 24);
      NormalizedRange(mant, leftShifts);
      ShlShl(mant, leftShifts, 23 - leftShifts);
      exp := 1;
      exp := exp - leftShifts;
      mant := Shl(mant, leftShifts);
    }
  }

  lemma ProductScale(va: nat, vb: nat, ma: nat, mb: nat, ea: int, eb: int)
    requires -22 <= ea && -22 <= eb
    requires Shl(va, 23) == Shl(ma, ea + 22) && Shl(vb, 23) == Shl(mb, eb + 22)
    ensures Shl(va * vb, 46) == Shl(ma * mb, ea + eb + 44)
  {
    ShlMul(va, 23, vb, 23);
    ShlMul(ma, ea + 22, mb, eb + 22);
  }

  lemma ProductRange(ma: nat, mb: nat)
    requires 0x80_0000 <= ma < 0x100_0000 && 0x80_0000 <= mb < 0x100_0000
    ensures 0x4000_0000_0000 <= ma * mb < 0x1_0000_0000_0000
  {
    MulMono(0x80_0000, ma, mb);
    MulStrict(ma, 0x100_0000, mb);
  }

  /** After a right shift by s bits the product has its leading bit in position 25. */
  lemma ShiftedRange(p: nat, s: nat)
    requires 0x4000_0000_0000 <= p < 0x1_0000_0000_0000
    requires s == if p >= 0x8000_0000_0000 then 24 else 23
    ensures 4 * p / 0x2_0000_0000_0000 % 2 == 1 <==> s == 24
    ensures 0x200_0000 <= Shr(4 * p, s) < 0x400_0000 && Pow2(s + 23) <= p && 4 * p < Pow2(63)
  {
    Pow2Values();
    Pow2Add(23, 23);
    Pow2Add(24, 23);
    Pow2Mono(50, 63);
    Pow2Add(25, s);
    Pow2Add(26, s);
    ShrBelow(4 * p, 25, s);
    ShrBelow(4 * p, 26, s);
  }

  /**
   x is the exact product in units of 2^-298 and p the product of the significands. When the result
   has exponent exp, s bits are shifted out, and c more if it is denormal.
   */
  lemma ShiftedProduct(x: nat, p: nat, exp: int, s: nat, c: nat, scale: nat)
    requires s <= 46 && c == Max(0, 1 - exp) && scale == Max(exp, 1) - 1
    requires 0 <= exp + 194 - s && Shl(x, 46) == Shl(p, exp + 194 - s)
    ensures Shl(x, s + c) == Shl(p, 149 + scale)
  {
    ShlShl(x, 46, c);
    ShlShl(p, exp + 194 - s, c);
    ShlShl(x, s + c, 46 - s);
    ShlShl(p, 149 + scale, 46 - s);
    assert exp + 194 - s + c == 149 + scale + (46 - s);
    ShlOrder(Shl(x, s + c), Shl(p, 149 + scale), 46 - s);
  }

  lemma ProductOverflows(x: nat, p: nat, exp: int, s: nat, k: nat)
    requires k + 105 < exp && s <= 46 && 0 <= exp + 194 - s && Pow2(s + 23) <= p
    requires Shl(x, 46) == Shl(p, exp + 194 - s)
    ensures RoundsTiesToEven(x, k, INFINITY)
  {
    ShlOrder(p, Pow2(s + 23), exp + 194 - s);
    ShlOfPow2(s + 23, exp + 194 - s);
    assert s + 23 + (exp + 194 - s) == exp + 217;
    Pow2Mono(k + 277 + 46, exp + 217);
    ShlOfPow2(k + 277, 46);
    ShlOrder(x, Pow2(k + 277), 46);
    OverflowBound(x, k);
  }

  lemma DenormalMantissa(m: nat, c: nat)
    requires m < 0x400_0000
    ensures 0 < c ==> Shr(m, c) < 0x200_0000
    ensures 31 <= c ==> Low(m, c) == m
  {
    Pow2Values();
    if 0 < c {
      Pow2Mono(26, 25 + c);
      ShrBelow(m, 25, c);
    }
    if 31 <= c {
      Pow2Mono(26, c);
      ShrOfSmall(m, c);
    }
  }

  lemma RoundedProduct(x: nat, p: nat, exp: int, s: nat, c: nat, mant: nat, sticky: bool)
    requires exp <= 254 && s <= 46 && c == Max(0, 1 - exp)
    requires 0 <= exp + 194 - s && Shl(x, 46) == Shl(p, exp + 194 - s)
    requires mant == Shr(Shr(4 * p, s), c) && 0x200_0000 <= Shr(4 * p, s) < 0x400_0000
    requires sticky <==> Low(4 * p, s) != 0 || Low(Shr(4 * p, s), c) != 0
    ensures var e: nat := Max(exp, 0);
            && InBinade(e, mant / 4)
            && RoundsTiesToEven(x, 149, Pattern(e, mant / 4) + if RoundsUp(mant, sticky) then 1 else 0)
  {
    var e: nat := Max(exp, 0);
    var scale: nat := Max(exp, 1) - 1;
    ShiftedProduct(x, p, exp, s, c, scale);
    TwoShifts(4 * p, s, c);
    ShlQuadruple(p, 149 + scale);
    ShiftTruncates(x, 4 * p, 149 + scale, s + c);
    DenormalMantissa(Shr(4 * p, s), c);
    TruncationRounds(x, 149, e, mant, sticky);
  }

  /** In units of 2^-298. */
  ghost function ExactProduct(a: word, b: word): (x: nat)
    requires IsFinite(a) && IsFinite(b)
  {
    MulMono(0, FiniteValue(a), FiniteValue(b));
    FiniteValue(a) * FiniteValue(b)
  }

  lemma ZeroProduct(a: word, b: word)
    requires IsFinite(a) && IsFinite(b) && (IsZero(a) || IsZero(b))
    ensures RoundsTiesToEven(ExactProduct(a, b), 149, 0)
  {
    UnsignedFields(a);
    UnsignedFields(b);
    assert FiniteValue(a) == 0 || FiniteValue(b) == 0;
    assert Value(0) == 0;
    ShlOfZero(149);
    RoundingIsExact(149, 0);
  }

  /** What float32_mul must return for two words, in terms of the exact product. */
  ghost predicate IsProduct(a: word, b: word, res: word) {
    var sign := if Sign(a) == Sign(b) then 0 else 1;
    if IsNaN(a) then res == a
    else if IsNaN(b) then res == b
    else if (IsZero(a) && IsInf(b)) || (IsInf(a) && IsZero(b)) then res == QNAN
    else if IsInf(a) || IsInf(b) then res == Build(sign, 255, 0)
    else Sign(res) == sign && RoundsTiesToEven(ExactProduct(a, b), 149, Unsigned(res))
  }

  method Float32Mul(a: word, b: word) returns (res: word)
    ensures IsProduct(a, b, res)
  {
    var sign := if Sign(a) == Sign(b) then 0 else 1;

    if IsNaN(a) {
      return a;
    }
    if IsNaN(b) {
      return b;
    }
    if IsZero(a) || IsZero(b) {
      if IsInf(a) || IsInf(b) {
        return QNAN;
      }
      ZeroProduct(a, b);
      return Build(sign, 0, 0);
    }
    if IsInf(a) || IsInf(b) {
      return Build(sign, 255, 0);
    }

    var mantA, expA := NormalizeOperand(a);
    var mantB, expB := NormalizeOperand(b);
    ProductScale(FiniteValue(a), FiniteValue(b), mantA, mantB, expA, expB);
    ProductRange(mantA, mantB);
    res := RoundProduct(sign, expA + expB - 127, mantA * mantB, ExactProduct(a, b));
  }

  /** Brings the leading bit of the product to position 25. */
  method ShiftProduct(product: nat, exp: int) returns (mantRes: nat, expRes: int, sticky: bool, ghost s: nat)
    requires 0x4000_0000_0000 <= product < 0x1_0000_0000_0000
    ensures s == 23 || s == 24
    ensures Pow2(s + 23) <= product
    ensures mantRes == Shr(4 * product, s) && 0x200_0000 <= mantRes < 0x400_0000
    ensures sticky <==> Low(4 * product, s) != 0
    ensures expRes == exp + s - 23
  {
    var mantRes64 := 4 * product;
    expRes := exp;
    sticky := false;
    s := if product >= 0x8000_0000_0000 then 24 else 23;
    ShiftedRange(product, s);
    if mantRes64 / 0x2_0000_0000_0000 % 2 == 1 {
      expRes := expRes + 1;
      mantRes, sticky := ShiftMantissaRight(mantRes64, 24, sticky, 64);
    } else {
      mantRes, sticky := ShiftMantissaRight(mantRes64, 23, sticky, 64);
    }
  }

  method ShiftDenormal(mant: nat, count: nat, sticky: bool) returns (mant': nat, sticky': bool)
    requires 0x200_0000 <= mant < 0x400_0000
    ensures mant' == Shr(mant, count)
    ensures sticky' <==> sticky || Low(mant, count) != 0
  {
    Pow2Values();
    Pow2Mono(26, 31);
    DenormalMantissa(mant, count);
    mant', sticky' := ShiftMantissaRight(mant, count, sticky, 32);
  }

  /** float32_mul from the product of the significands on; x is the exact product. */
  method RoundProduct(sign: nat, exp: int, product: nat, ghost x: nat) returns (res: word)
    requires sign <= 1 && -171 <= exp
    requires 0x4000_0000_0000 <= product < 0x1_0000_0000_0000
    requires Shl(x, 46) == Shl(product, exp + 171)
    ensures Sign(res) == sign
    ensures RoundsTiesToEven(x, 149, Unsigned(res))
  {
    var mantRes, expRes, sticky, s := ShiftProduct(product, exp);
    if expRes > 254 {
      ProductOverflows(x, product, expRes, s, 149);
      return Build(sign, 255, 0);
    }
    ghost var expBefore := expRes;
    if expRes < 1 {
      mantRes, sticky := ShiftDenormal(mantRes, -expRes + 1, sticky);
      expRes := 0;
    }
    RoundedProduct(x, product, expBefore, s, Max(0, 1 - expBefore), mantRes, sticky);
    res := RoundToNearest(sign, expRes, mantRes, sticky, false, 0);
  }

  /** Up to the choice between NaNs, the order of the operands does not matter. */
  lemma MultiplicationCommutes(a: word, b: word, res: word, res': word)
    requires IsProduct(a, b, res) && IsProduct(b, a, res')
    requires !IsNaN(a) && !IsNaN(b)
    ensures res == res'
  {
    if IsFinite(a) && IsFinite(b) {
      ProductsAgree(FiniteValue(a), FiniteValue(b));
      RoundingIsUnique(ExactProduct(a, b), 149, Unsigned(res), Unsigned(res'));
      WordOfParts(res, res');
    }
  }

  lemma ProductsAgree(va: nat, vb: nat)
    ensures va * vb == vb * va
  {
  }
}
