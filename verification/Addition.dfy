/** float32_add against roundTiesToEven of the exact sum. */
module Addition {
  import opened Powers
  import opened Shifts
  import opened Binary32
  import opened Rounding
  import LeadingZeros

  /** The mantissa of a finite operand with two extra bits, and its exponent (0 only for zeros). */
  ghost predicate IsUnpacked(value: nat, mant: nat, exp: nat) {
    && 4 * value == Shl(mant, Scale(exp))
    && mant < 0x400_0000 && mant % 4 == 0 && exp <= 254
    && (exp == 0 <==> mant == 0)
    && (2 <= exp ==> 0x200_0000 <= mant)
  }

  method Unpack(f: word) returns (mant: nat, exp: nat)
    requires IsFinite(f)
    ensures IsUnpacked(FiniteValue(f), mant, exp)
  {
    UnsignedFields(f);
    mant := 4 * Fraction(f);
    exp := Exponent(f);
    if IsNormal(f) {
      mant := mant + 0x200_0000;
      ShlQuadruple(Fraction(f) + 0x80_0000, Exponent(f) - 1);
    } else if IsDenormal(f) {
      exp := 1;
    }
  }

  /** total is the exact sum x in units of 2^(scale-d-2), where d bits lie below the mantissa. */
  ghost predicate IsTotal(x: nat, scale: nat, d: nat, total: nat) {
    4 * Shl(x, d) == Shl(total, scale)
  }

  lemma AlignedOperand(v: nat, mant: nat, exp: nat, top: nat)
    requires IsUnpacked(v, mant, exp) && exp <= top
    ensures IsTotal(v, Scale(top), top - exp, mant)
  {
    var d := top - exp;
    if exp == 0 {
      ShlOfZero(Scale(exp));
      ShlOfZero(d);
      ShlOfZero(Scale(top));
    } else {
      ShlQuadruple(v, d);
      ShlShl(mant, Scale(exp), d);
    }
  }

  lemma TopOperand(v: nat, mant: nat, exp: nat, d: nat)
    requires IsUnpacked(v, mant, exp)
    ensures IsTotal(v, Scale(exp), d, Shl(mant, d))
  {
    ShlQuadruple(v, d);
    ShlShl(mant, Scale(exp), d);
    ShlShl(mant, d, Scale(exp));
    assert d + Scale(exp) == Scale(exp) + d;
  }

  lemma TotalOfSum(v: nat, w: nat, scale: nat, d: nat, t: nat, u: nat)
    requires IsTotal(v, scale, d, t) && IsTotal(w, scale, d, u)
    ensures IsTotal(v + w, scale, d, t + u)
    ensures t <= u ==> v <= w && IsTotal(w - v, scale, d, u - t)
    ensures v <= w ==> t <= u
    ensures t == u <==> v == w
  {
    ShlAdd(v, w, d);
    ShlAdd(t, u, scale);
    ShlOrder(u, t, scale);
    ShlOrder(w, v, d);
    if t <= u {
      ShlAdd(w - v, v, d);
      ShlAdd(u - t, t, scale);
    }
  }

  /** Quotient and remainder of a shift are determined by how they put the number together. */
  lemma {:induction false} ShrUnique(m: nat, q: nat, r: nat, k: nat)
    requires m == Shl(q, k) + r && r < Pow2(k)
    ensures Shr(m, k) == q && Low(m, k) == r
    decreases k
  {
    if k > 0 {
      assert m / 2 == Shl(q, k - 1) + r / 2 && m % 2 == r % 2;
      ShrUnique(m / 2, q, r / 2, k - 1);
      assert r == r % 2 + 2 * (r / 2);
    }
  }

  lemma SumParts(big: nat, small: nat, d: nat)
    ensures var total := Shl(big, d) + small;
            Shr(total, d) == big + Shr(small, d) && Low(total, d) == Low(small, d)
  {
    ShrLow(small, d);
    ShlAdd(big, Shr(small, d), d);
    ShrUnique(Shl(big, d) + small, big + Shr(small, d), Low(small, d), d);
  }

  /** Subtracting the sticky bit gives the floor of the exact difference. */
  lemma DifferenceParts(big: nat, small: nat, d: nat)
    requires small <= Shl(big, d)
    ensures var total, r := Shl(big, d) - small, Low(small, d);
            && Shr(small, d) + (if r != 0 then 1 else 0) <= big
            && Shr(total, d) == big - Shr(small, d) - (if r != 0 then 1 else 0)
            && (Low(total, d) != 0 <==> r != 0)
  {
    var a, r := Shr(small, d), Low(small, d);
    ShrLow(small, d);
    ShlOrder(big, a, d);
    if r == 0 {
      ShlAdd(big - a, a, d);
      ShrUnique(Shl(big, d) - small, big - a, 0, d);
    } else {
      ShlOrder(a, big, d);
      ShlAdd(big - a - 1, a + 1, d);
      ShlAdd(a, 1, d);
      ShlOfPow2(0, d);
      assert Pow2(0) == 1;
      ShrUnique(Shl(big, d) - small, big - a - 1, Pow2(d) - r, d);
    }
  }

  /** What the aligned addition leaves for normalisation. */
  ghost predicate IsAligned(x: nat, exp: nat, d: nat, total: nat, mant: nat, sticky: bool) {
    && exp <= 254 && IsTotal(x, Scale(exp), d, total)
    && mant == Shr(total, d) && (sticky <==> Low(total, d) != 0)
    && mant < 0x800_0000
    && (mant != 0 ==> 1 <= exp)
    && (sticky ==> 4 <= exp && 0x100_0000 <= mant)
  }

  lemma ZeroTruncates(x: nat, exp: nat, d: nat, total: nat)
    requires IsAligned(x, exp, d, total, 0, false)
    ensures x == 0 && Truncates(x, 0, 0, false)
  {
    ShrLow(total, d);
    ShlOfZero(d);
    ShlOfZero(Scale(exp));
    ShlOrder(x, 0, d);
  }

  /** A carry into bit 26 is one more bit shifted out. */
  lemma CarryTruncates(x: nat, exp: nat, d: nat, total: nat, mant: nat, sticky: bool)
    requires IsAligned(x, exp, d, total, mant, sticky) && 1 <= exp
    ensures Truncates(x, exp, Shr(mant, 1), sticky || Low(mant, 1) != 0)
  {
    TwoShifts(total, d, 1);
    ShlTwice(x, d);
    ShlDouble(x, d);
    ShlTwice(total, Scale(exp));
    ShlDouble(total, Scale(exp));
    ShiftTruncates(x, total, exp, d + 1);
  }

  lemma CarryOverflows(x: nat, d: nat, total: nat, mant: nat, sticky: bool)
    requires IsAligned(x, 254, d, total, mant, sticky) && 0x400_0000 <= mant
    ensures RoundsTiesToEven(x, 0, INFINITY)
  {
    CarryReaches(x, 254, d, total, mant, sticky);
    OverflowBound(x, 0);
  }

  lemma CarryReaches(x: nat, exp: nat, d: nat, total: nat, mant: nat, sticky: bool)
    requires IsAligned(x, exp, d, total, mant, sticky) && 1 <= exp && 0x400_0000 <= mant
    ensures Pow2(exp + 23) <= x
  {
    ShrBelow(total, 26, d);
    Pow2Values();
    TotalReaches(x, exp - 1, d, total, exp + 23);
  }

  lemma TotalReaches(x: nat, scale: nat, d: nat, total: nat, k: nat)
    requires IsTotal(x, scale, d, total) && Pow2(26 + d) <= total && k == scale + 24
    ensures Pow2(k) <= x
  {
    ShlOrder(total, Pow2(26 + d), scale);
    ShlOfPow2(26 + d, scale);
    assert 26 + d + scale == k + d + 2;
    Pow2Step(k + d);
    Pow2Step(k + d + 1);
    ShlOfPow2(k, d);
    ShlOrder(x, Pow2(k), d);
  }

  lemma LeftShiftEquation(x: nat, exp: nat, d: nat, total: nat, mant: nat, sticky: bool, left: nat)
    requires IsAligned(x, exp, d, total, mant, sticky) && left <= Scale(exp)
    ensures var j := Scale(exp) - left;
            4 * Shl(x, d) == Shl(Shl(mant, left), d + j) + Shl(Shl(Low(total, d), left), j)
  {
    var j, r := Scale(exp) - left, Low(total, d);
    ShrLow(total, d);
    ShlSum(total, Shl(mant, d), r, Scale(exp));
    ShlShl(mant, d, Scale(exp));
    ShlShl(mant, left, d + j);
    assert left + (d + j) == d + Scale(exp);
    ShlShl(r, left, j);
  }

  /** Moving the mantissa left lowers the exponent; a bit that would be missing is only sticky. */
  lemma LeftShiftTruncates(x: nat, exp: nat, d: nat, total: nat, mant: nat, sticky: bool, left: nat)
    requires IsAligned(x, exp, d, total, mant, sticky) && left <= Scale(exp) && (sticky ==> left <= 1)
    ensures Truncates(x, Scale(exp) - left, Shl(mant, left), sticky)
  {
    var j, r := Scale(exp) - left, Low(total, d);
    ShrLow(total, d);
    LeftShiftEquation(x, exp, d, total, mant, sticky, left);
    if r == 0 {
      ShlOfZero(left);
      RemainderTruncates(x, j, Shl(mant, left), d, 0);
    } else if left == 0 {
      RemainderTruncates(x, j, mant, d, r);
    } else {
      assert Shl(mant, 0) == mant && Shl(r, 0) == r;
      DoubledRemainderTruncates(x, j, 2 * mant, d, 2 * r);
    }
  }

  lemma LeftShiftRange(mant: nat, exp: nat, zeroes: nat)
    requires 0 < mant && 1 <= exp && zeroes <= 26 && mant < Pow2(26 - zeroes)
    requires zeroes < 26 ==> Pow2(25 - zeroes) <= mant
    ensures zeroes < 26 && (0x100_0000 <= mant ==> zeroes <= 1)
    ensures zeroes < exp ==> 0x200_0000 <= Shl(mant, zeroes) < 0x400_0000
    ensures exp <= zeroes ==> Shl(mant, exp - 1) < 0x200_0000
  {
    Pow2Values();
    assert Pow2(0) == 1;
    if 2 <= zeroes {
      Pow2Mono(26 - zeroes, 24);
    }
    ShlOrder(mant, Pow2(26 - zeroes), zeroes);
    ShlOrder(mant, Pow2(25 - zeroes), zeroes);
    ShlOfPow2(26 - zeroes, zeroes);
    ShlOfPow2(25 - zeroes, zeroes);
    if exp <= zeroes {
      ShlOrder(mant, Pow2(26 - zeroes), exp - 1);
      ShlOfPow2(26 - zeroes, exp - 1);
      Pow2Mono(26 - zeroes + (exp - 1), 25);
    }
  }

  /** The branch of float32_add without a carry: leading zeros are shifted out while the exponent lasts. */
  method ShiftLeft(exp: nat, mantRes: nat, sticky: bool, ghost x: nat, ghost d: nat, ghost total: nat)
    returns (exp': nat, mantRes': nat)
    requires IsAligned(x, exp, d, total, mantRes, sticky) && 0 < mantRes < 0x400_0000
    ensures exp' <= 254 && InBinade(exp', mantRes' / 4)
    ensures Truncates(x, Scale(exp'), mantRes', sticky)
  {
    Pow2Values();
    var leftShifts := LeadingZeros.LeadingZeroes(mantRes, 26);
    LeftShiftRange(mantRes, exp, leftShifts);
    LeftShiftResult(x, exp, d, total, mantRes, sticky, leftShifts);
    if leftShifts >= exp {
      leftShifts := exp - 1;
      exp' := 0;
    } else {
      exp' := exp - leftShifts;
    }
    mantRes' := Shl(mantRes, leftShifts);
  }

  lemma LeftShiftResult(x: nat, exp: nat, d: nat, total: nat, mant: nat, sticky: bool, zeroes: nat)
    requires IsAligned(x, exp, d, total, mant, sticky) && 1 <= exp && (0x100_0000 <= mant ==> zeroes <= 1)
    requires zeroes < exp ==> 0x200_0000 <= Shl(mant, zeroes) < 0x400_0000
    requires exp <= zeroes ==> Shl(mant, exp - 1) < 0x200_0000
    ensures exp <= zeroes ==> Truncates(x, 0, Shl(mant, exp - 1), sticky) && InBinade(0, Shl(mant, exp - 1) / 4)
    ensures zeroes < exp ==> Truncates(x, Scale(exp - zeroes), Shl(mant, zeroes), sticky)
    ensures zeroes < exp ==> InBinade(exp - zeroes, Shl(mant, zeroes) / 4)
  {
    LeftShiftTruncates(x, exp, d, total, mant, sticky, if exp <= zeroes then exp - 1 else zeroes);
  }

  /** float32_add from the normalisation on; x is the exact magnitude of the sum. */
  method RoundSum(sign: nat, exp: nat, mantRes: nat, sticky: bool, ghost x: nat, ghost d: nat, ghost total: nat)
    returns (res: word)
    requires sign <= 1 && IsAligned(x, exp, d, total, mantRes, sticky)
    ensures Sign(res) == sign && RoundsTiesToEven(x, 0, Unsigned(res))
  {
    var exp, mantRes, sticky := exp, mantRes, sticky;
    var errRes: word, isErr := 0, false;
    if mantRes == 0 {
      ZeroTruncates(x, exp, d, total);
      exp := 0;
    } else if mantRes / 0x400_0000 % 2 == 1 {
      if exp == 254 {
        CarryOverflows(x, d, total, mantRes, sticky);
        errRes := Build(sign, 255, 0);
        isErr := true;
      }
      CarryTruncates(x, exp, d, total, mantRes, sticky);
      mantRes, sticky := ShiftCarry(mantRes, sticky);
      exp := exp + 1;
    } else {
      exp, mantRes := ShiftLeft(exp, mantRes, sticky, x, d, total);
    }
    if !isErr {
      TruncationRounds(x, 0, exp, mantRes, sticky);
    }
    res := RoundToNearest(sign, exp, mantRes, sticky, isErr, errRes);
  }

  method ShiftCarry(mant: nat, sticky: bool) returns (mant': nat, sticky': bool)
    requires 0x400_0000 <= mant < 0x800_0000
    ensures mant' == Shr(mant, 1) && 0x80_0000 <= mant' / 4 < 0x100_0000
    ensures sticky' <==> sticky || Low(mant, 1) != 0
  {
    Pow2Values();
    Pow2Mono(26, 30);
    Pow2Step(26);
    mant', sticky' := ShiftMantissaRight(mant, 1, sticky, 32);
    assert Shr(mant / 2, 0) == mant / 2;
  }

  /** Two low zero bits in each operand leave room for shifts by one and by two. */
  lemma NothingLostNearby(mant: nat, d: nat)
    requires mant % 4 == 0 && d <= 2
    ensures Low(mant, d) == 0
  {
    if d == 2 {
      assert Low(mant / 2, 1) == mant / 2 % 2 + 2 * Low(mant / 2 / 2, 0);
    } else if d == 1 {
      assert Low(mant / 2, 0) == 0;
    }
  }

  lemma SmallWhenDistant(mant: nat, d: nat)
    requires mant < 0x400_0000 && 3 <= d
    ensures Shr(mant, d) < 0x80_0000
  {
    Pow2Values();
    Pow2Mono(26, 23 + d);
    ShrBelow(mant, 23, d);
  }

  /** The operands after the swap: a has the smaller magnitude. */
  ghost predicate IsOrdered(va: nat, mantA: nat, expA: nat, vb: nat, mantB: nat, expB: nat) {
    && IsUnpacked(va, mantA, expA) && IsUnpacked(vb, mantB, expB)
    && (expA < expB || (expA == expB && mantA <= mantB))
  }

  lemma OrderedTotals(va: nat, mantA: nat, expA: nat, vb: nat, mantB: nat, expB: nat)
    requires IsOrdered(va, mantA, expA, vb, mantB, expB)
    ensures var d, scale := expB - expA, Scale(expB);
            && mantA <= Shl(mantB, d) && va <= vb
            && IsTotal(vb + va, scale, d, Shl(mantB, d) + mantA)
            && IsTotal(vb - va, scale, d, Shl(mantB, d) - mantA)
  {
    var d := expB - expA;
    AlignedOperand(va, mantA, expA, expB);
    TopOperand(vb, mantB, expB, d);
    TotalOfSum(va, vb, Scale(expB), d, mantA, Shl(mantB, d));
    if expA < expB {
      LargerExponent(mantA, expA, mantB, expB);
    }
    assert Shl(mantB, 0) == mantB;
    TotalOfSum(va, vb, Scale(expB), d, mantA, Shl(mantB, d));
    assert va + vb == vb + va;
  }

  lemma LargerExponent(mantA: nat, expA: nat, mantB: nat, expB: nat)
    requires mantA < 0x400_0000 && (expA == 0 <==> mantA == 0)
    requires expA < expB && 0 < mantB && (2 <= expB ==> 0x200_0000 <= mantB)
    ensures mantA < Shl(mantB, expB - expA)
  {
    var d := expB - expA;
    ShlAtLeast(mantB, d);
    if expA > 0 {
      assert Shl(mantB, d) == 2 * Shl(mantB, d - 1);
      ShlAtLeast(mantB, d - 1);
    }
  }

  lemma {:induction false} ShlAtLeast(m: nat, k: nat)
    ensures m <= Shl(m, k)
    decreases k
  {
    if k > 0 {
      ShlAtLeast(m, k - 1);
    }
  }

  lemma AlignedSum(va: nat, mantA: nat, expA: nat, vb: nat, mantB: nat, expB: nat)
    requires IsOrdered(va, mantA, expA, vb, mantB, expB)
    ensures var d := expB - expA;
            IsAligned(vb + va, expB, d, Shl(mantB, d) + mantA, mantB + Shr(mantA, d), Low(mantA, d) != 0)
  {
    var d := expB - expA;
    OrderedTotals(va, mantA, expA, vb, mantB, expB);
    SumParts(mantB, mantA, d);
    ShrAtMost(mantA, d);
    if Low(mantA, d) != 0 {
      if d <= 2 {
        NothingLostNearby(mantA, d);
      }
      LowOfZero(d);
    }
  }

  lemma AlignedDifference(va: nat, mantA: nat, expA: nat, vb: nat, mantB: nat, expB: nat)
    requires IsOrdered(va, mantA, expA, vb, mantB, expB)
    ensures var d := expB - expA;
            var sticky := Low(mantA, d) != 0;
            var mant := mantB - Shr(mantA, d) - if sticky then 1 else 0;
            va <= vb && mantA <= Shl(mantB, d) && 0 <= mant && IsAligned(vb - va, expB, d, Shl(mantB, d) - mantA, mant, sticky)
  {
    var d := expB - expA;
    OrderedTotals(va, mantA, expA, vb, mantB, expB);
    DifferenceParts(mantB, mantA, d);
    if Low(mantA, d) != 0 {
      if d <= 2 {
        NothingLostNearby(mantA, d);
      }
      SmallWhenDistant(mantA, d);
      LowOfZero(d);
    }
  }

  lemma {:induction false} ShrAtMost(m: nat, k: nat)
    ensures Shr(m, k) <= m
    decreases k
  {
    if k > 0 {
      ShrAtMost(m / 2, k - 1);
    }
  }

  lemma LowOfZero(k: nat)
    ensures Low(0, k) == 0
  {
    ShlOfZero(k);
    ShrUnique(0, 0, 0, k);
  }

  ghost function SignedValue(f: word): (v: int)
    requires IsFinite(f)
  {
    Signed(Sign(f), FiniteValue(f))
  }

  ghost function Signed(sign: nat, m: nat): (v: int) { if sign == 0 then m else 0 - m }

  ghost function Magnitude(v: int): (m: nat) { if v < 0 then -v else v }

  /** What float32_add must return for two words, in terms of the exact sum. */
  ghost predicate IsSum(a: word, b: word, res: word) {
    if IsNaN(a) then res == a
    else if IsNaN(b) then res == b
    else if IsInf(a) && IsInf(b) && Sign(a) != Sign(b) then res == QNAN
    else if IsInf(a) then res == a
    else if IsInf(b) then res == b
    else
      var x := SignedValue(a) + SignedValue(b);
      && RoundsTiesToEven(Magnitude(x), 0, Unsigned(res))
      && Sign(res) == if x > 0 then 0 else if x < 0 then 1 else Sign(b)
  }

  method Float32Add(a: word, b: word) returns (res: word)
    ensures IsSum(a, b, res)
  {
    if IsNaN(a) {
      return a;
    }
    if IsNaN(b) {
      return b;
    }
    if IsInf(a) && IsInf(b) {
      if Sign(a) == Sign(b) {
        return a;
      }
      return QNAN;
    } else if IsInf(a) {
      return a;
    } else if IsInf(b) {
      return b;
    }
    var mantA, expA := Unpack(a);
    var mantB, expB := Unpack(b);
    res := AddUnpacked(Sign(a), mantA, expA, Sign(b), mantB, expB, FiniteValue(a), FiniteValue(b));
  }

  /** float32_add from the comparison of the exponents on, with the swap of the operands. */
  method AddUnpacked(signA: nat, mantA: nat, expA: nat, signB: nat, mantB: nat, expB: nat, ghost va: nat, ghost vb: nat)
    returns (res: word)
    requires signA <= 1 && signB <= 1 && IsUnpacked(va, mantA, expA) && IsUnpacked(vb, mantB, expB)
    ensures var x := Signed(signA, va) + Signed(signB, vb);
            && RoundsTiesToEven(Magnitude(x), 0, Unsigned(res))
            && Sign(res) == if x > 0 then 0 else if x < 0 then 1 else signB
  {
    var d := Difference(expB, expA);
    if d < 0 || (d == 0 && mantB < mantA) {
      StrictOrder(vb, mantB, expB, va, mantA, expA);
      SignOfSum(signB, vb, signA, va);
      res := AddOrdered(signB, mantB, expB, signA, mantA, expA, vb, va);
    } else {
      OrderedTotals(va, mantA, expA, vb, mantB, expB);
      SignOfSum(signA, va, signB, vb);
      res := AddOrdered(signA, mantA, expA, signB, mantB, expB, va, vb);
    }
  }

  function Difference(x: int, y: int): (d: int) { x - y }

  /** The operand of larger magnitude gives the sum its sign. */
  lemma SignOfSum(signA: nat, va: nat, signB: nat, vb: nat)
    requires signA <= 1 && signB <= 1 && va <= vb
    ensures var x := Signed(signA, va) + Signed(signB, vb);
            && Magnitude(x) == (if signA == signB then vb + va else vb - va)
            && (x > 0 ==> signB == 0) && (x < 0 ==> signB == 1)
            && (va < vb ==> x != 0)
  {
  }

  lemma StrictOrder(va: nat, mantA: nat, expA: nat, vb: nat, mantB: nat, expB: nat)
    requires IsOrdered(va, mantA, expA, vb, mantB, expB)
    requires expA < expB || mantA < mantB
    ensures va < vb
  {
    var d := expB - expA;
    if expA < expB {
      LargerExponent(mantA, expA, mantB, expB);
    } else {
      assert Shl(mantB, 0) == mantB;
    }
    AlignedOperand(va, mantA, expA, expB);
    TopOperand(vb, mantB, expB, d);
    TotalOfSum(va, vb, Scale(expB), d, mantA, Shl(mantB, d));
  }

  method AddOrdered(signA: nat, mantA: nat, expA: nat, signB: nat, mantB: nat, expB: nat, ghost va: nat, ghost vb: nat)
    returns (res: word)
    requires signA <= 1 && signB <= 1 && IsOrdered(va, mantA, expA, vb, mantB, expB)
    ensures Sign(res) == signB
    ensures va <= vb && RoundsTiesToEven(if signA == signB then vb + va else vb - va, 0, Unsigned(res))
  {
    var d := expB - expA;
    Pow2Values();
    Pow2Mono(26, 31);
    OrderedTotals(va, mantA, expA, vb, mantB, expB);
    var shifted, sticky := ShiftMantissaRight(mantA, d, false, 32);
    var mantRes: int;
    if signA == signB {
      AlignedSum(va, mantA, expA, vb, mantB, expB);
      mantRes := shifted + mantB;
      res := RoundSum(signB, expB, mantRes, sticky, vb + va, d, Shl(mantB, d) + mantA);
    } else {
      AlignedDifference(va, mantA, expA, vb, mantB, expB);
      mantRes := mantB - shifted;
      mantRes := mantRes - if sticky then 1 else 0;
      res := RoundSum(signB, expB, mantRes, sticky, vb - va, d, Shl(mantB, d) - mantA);
    }
  }

  /** The sign section 6.3 of IEEE 754-2008 asks of an exact zero sum under roundTiesToEven. */
  function ZeroSumSign(a: word, b: word): (s: nat) { if Sign(a) == Sign(b) then Sign(a) else 0 }

  lemma RoundedZero(n: nat)
    requires RoundsTiesToEven(0, 0, n)
    ensures n == 0
  {
    RoundingIsExact(0, 0);
    assert Shl(Value(0), 0) == 0;
    RoundingIsUnique(0, 0, n, 0);
  }

  /** An exact zero sum is delivered as a zero, with the required sign in exactly these cases. */
  lemma ZeroSum(a: word, b: word, res: word)
    requires IsFinite(a) && IsFinite(b) && IsSum(a, b, res)
    requires SignedValue(a) + SignedValue(b) == 0
    ensures Unsigned(res) == 0
    ensures Sign(res) == ZeroSumSign(a, b) <==> Sign(a) == Sign(b) || Sign(b) == 0
  {
    RoundedZero(Unsigned(res));
  }

  /** 1.0 + -1.0 is delivered as -0.0. */
  lemma OneMinusOneIsNegativeZero(res: word)
    requires IsSum(0x3F80_0000, 0xBF80_0000, res)
    ensures res == 0x8000_0000 && ZeroSumSign(0x3F80_0000, 0xBF80_0000) == 0
  {
    var a: word, b: word := 0x3F80_0000, 0xBF80_0000;
    assert Unsigned(a) == Unsigned(b);
    assert SignedValue(a) + SignedValue(b) == 0;
    ZeroSum(a, b, res);
  }

  /** Up to the choice between NaNs and between zeros, the order of the operands does not matter. */
  lemma AdditionCommutes(a: word, b: word, res: word, res': word)
    requires IsSum(a, b, res) && IsSum(b, a, res')
    requires !IsNaN(a) && !IsNaN(b)
    ensures res == res' || (Unsigned(res) == Unsigned(res') == 0 && Sign(a) != Sign(b))
  {
    if IsFinite(a) && IsFinite(b) {
      var x := SignedValue(a) + SignedValue(b);
      assert x == SignedValue(b) + SignedValue(a);
      RoundingIsUnique(Magnitude(x), 0, Unsigned(res), Unsigned(res'));
      if x == 0 {
        RoundedZero(Unsigned(res));
      }
      if Sign(res) == Sign(res') {
        WordOfParts(res, res');
      }
    } else if IsInf(a) && IsInf(b) && Sign(a) == Sign(b) {
      UnsignedFields(a);
      UnsignedFields(b);
      WordOfParts(a, b);
    }
  }
}
