/** The shift and rounding macros of float32.h, and what a truncated mantissa says about a value. */
module Rounding {
  import opened Powers
  import opened Shifts
  import opened Binary32

  /** -(count) & (width - 1), for a width that is a power of two. */
  function Complement(count: int, width: int): (c: nat)
    requires 0 < width
  {
    (-count) % width
  }

  /** shift_mantissa_right_32 and shift_mantissa_right_64, with the word width as a parameter. */
  method ShiftMantissaRight(mant: nat, count: nat, sticky: bool, width: nat) returns (mant': nat, sticky': bool)
    requires 0 < width && mant < Pow2(width - 1)
    ensures mant' == Shr(mant, count)
    ensures sticky' <==> (sticky && count < width - 1) || Low(mant, count) != 0
  {
    if count < width - 1 {
      sticky' := sticky || (Low(Shl(mant, Complement(count, width)), width) != 0 && count != 0);
      mant' := Shr(mant, count);
      LostBits(mant, count, width);
    } else {
      sticky' := mant != 0;
      mant' := 0;
      AllShiftedOut(mant, count, width);
    }
  }

  lemma AllShiftedOut(mant: nat, count: nat, width: nat)
    requires 0 < width && mant < Pow2(width - 1) && width - 1 <= count
    ensures Shr(mant, count) == 0 && Low(mant, count) == mant
  {
    Pow2Mono(width - 1, count);
    ShrOfSmall(mant, count);
  }

  lemma ComplementOf(count: int, width: int)
    requires 0 < count < width
    ensures Complement(count, width) == width - count
  {
    DivUnique(-count, width, -1, width - count);
  }

  /** The left shift by the complement keeps exactly the bits that the right shift drops. */
  lemma LostBits(mant: nat, count: nat, width: nat)
    requires count < width
    ensures count != 0 && Low(Shl(mant, Complement(count, width)), width) != 0 <==> Low(mant, count) != 0
  {
    if count != 0 {
      ComplementOf(count, width);
      LowOfShl(mant, count, width - count);
      ShlOrder(Low(mant, count), 0, width - count);
      ShlOfZero(width - count);
    }
  }

  /** Whether round_to_nearest adds one to mant >> 2. */
  predicate RoundsUp(mant: nat, sticky: bool) {
    mant / 2 % 2 == 1 && (mant % 2 == 1 || sticky || mant / 4 % 2 == 1)
  }

  /** The carry out of the significand into the exponent field, for a rounded-up significand. */
  predicate Carries(exp: nat, mant: nat) {
    mant / 0x100_0000 % 2 == 1 || (exp == 0 && mant / 0x80_0000 % 2 == 1)
  }

  lemma PatternIsBuilt(exp: nat, q: nat)
    requires exp <= 254 && InBinade(exp, q)
    ensures Pattern(exp, q) == exp * 0x80_0000 + q % 0x80_0000
  {
  }

  lemma SuccessorIsBuilt(exp: nat, q: nat)
    requires exp <= 254 && InBinade(exp, q)
    ensures Pattern(exp, q) + 1 == (exp + if Carries(exp, q + 1) then 1 else 0) * 0x80_0000 + (q + 1) % 0x80_0000
  {
    if q == 0xFF_FFFF || q == 0x7F_FFFF {
    } else if exp == 0 {
      assert (q + 1) / 0x80_0000 == 0;
    } else {
      assert (q + 1) / 0x80_0000 == 1;
    }
  }

  /** round_to_nearest; is_err and err_res are passed in as the callers leave them. */
  method RoundToNearest(sign: nat, exp: nat, mant: nat, sticky: bool, isErr: bool, errRes: word) returns (res: word)
    requires sign <= 1
    requires exp <= 255
    requires !isErr ==> InBinade(exp, mant / 4)
    ensures isErr ==> res == errRes
    ensures !isErr ==> Sign(res) == sign
    ensures !isErr && exp == 255 ==>
              var up := if RoundsUp(mant, sticky) then 1 else 0;
              Unsigned(res) == INFINITY + if up == 1 && Carries(255, mant / 4 + 1) then 0 else (mant / 4 + up) % 0x80_0000
    ensures !isErr && exp < 255 ==> Unsigned(res) == Pattern(exp, mant / 4) + if RoundsUp(mant, sticky) then 1 else 0
  {
    var exp, mant, isErr, errRes := exp, mant, isErr, errRes;
    if !isErr && exp < 255 {
      PatternIsBuilt(exp, mant / 4);
      SuccessorIsBuilt(exp, mant / 4);
    }
    if !isErr && RoundsUp(mant, sticky) {
      mant := mant / 4 + 1;
      if Carries(exp, mant) {
        if exp == 255 {
          errRes := Build(sign, 255, 0);
          isErr := true;
        } else {
          exp := exp + 1;
        }
      }
    } else {
      mant := mant / 4;
    }
    if isErr {
      res := errRes;
    } else {
      res := Build(sign, exp, mant % 0x80_0000);
    }
  }

  /**
   mant / 4 is x truncated to a multiple of 2^j, and its two extra bits with the sticky bit say on
   which side of the midpoint x lies.
   */
  ghost predicate Truncates(x: nat, j: nat, mant: nat, sticky: bool) {
    var lo, w := Shl(mant / 4, j), Shl(1, j);
    && lo <= x < lo + w
    && (mant % 4 < 2 <==> 2 * x < 2 * lo + w)
    && (mant % 4 == 2 && !sticky <==> 2 * x == 2 * lo + w)
  }

  lemma TruncationRounds(x: nat, k: nat, e: nat, mant: nat, sticky: bool)
    requires e <= 254 && InBinade(e, mant / 4)
    requires Truncates(x, k + Scale(e), mant, sticky)
    ensures RoundsTiesToEven(x, k, Pattern(e, mant / 4) + if RoundsUp(mant, sticky) then 1 else 0)
  {
    UpperExtraBit(mant);
    NeighboursDecide(x, k, e, mant / 4, RoundsUp(mant, sticky));
  }

  lemma UpperExtraBit(mant: nat)
    ensures mant / 2 % 2 == 1 <==> mant % 4 >= 2
    ensures mant % 4 == 3 ==> mant % 2 == 1
    ensures mant % 4 == 2 ==> mant % 2 == 0
  {
  }

  /** Times 2^n, y is a quarter of t * 2^j; so y against 2^j is t against 2^n. */
  lemma QuartersAgainst(y: nat, j: nat, t: nat, n: nat)
    requires 4 * Shl(y, n) == Shl(t, j)
    ensures y < Shl(1, j) <==> t < 4 * Pow2(n)
    ensures 2 * y < Shl(1, j) <==> t < 2 * Pow2(n)
    ensures 2 * y == Shl(1, j) <==> t == 2 * Pow2(n)
  {
    var w, u := Shl(1, j), Pow2(n);
    var unit, t' := Shl(w, n), Shl(t, j);
    ShiftedUnit(j, n);
    assert y < w <==> Shl(y, n) < unit by {
      ShlOrder(y, w, n);
    }
    assert (2 * y < w <==> 2 * Shl(y, n) < unit) && (2 * y == w <==> 2 * Shl(y, n) == unit) by {
      ShlDouble(y, n);
      ShlOrder(2 * y, w, n);
    }
    assert (t < 2 * u <==> t' < 2 * unit) && (t == 2 * u <==> t' == 2 * unit) by {
      ShlDouble(u, j);
      ShlOrder(t, 2 * u, j);
    }
    assert t < 4 * u <==> t' < 4 * unit by {
      ShlDouble(u, j);
      ShlDouble(2 * u, j);
      ShlOrder(t, 2 * (2 * u), j);
    }
  }

  lemma ShiftedUnit(j: nat, n: nat)
    ensures Shl(Pow2(n), j) == Shl(Shl(1, j), n)
  {
    ShlShl(1, j, n);
    ShlOfPow2(0, j + n);
    ShlOfPow2(n, j);
    assert Pow2(0) == 1;
  }

  lemma ShlParts(q: nat, low: nat, k: nat)
    ensures Shl(4 * q + low, k) == 4 * Shl(q, k) + Shl(low, k)
  {
    ShlAdd(4 * q, low, k);
    ShlAdd(2 * q, 2 * q, k);
    ShlAdd(q, q, k);
  }

  /** x is (mant + r / 2^n) quarters of 2^j, and t collects what is beyond mant / 4. */
  lemma ScaledTruncates(x: nat, j: nat, mant: nat, n: nat, r: nat, t: nat, sticky: bool)
    requires 4 * Shl(x, n) == Shl(mant, n + j) + Shl(r, j)
    requires t == Shl(mant % 4, n) + r && t < 4 * Pow2(n)
    requires mant % 4 < 2 <==> t < 2 * Pow2(n)
    requires mant % 4 == 2 && !sticky <==> t == 2 * Pow2(n)
    ensures Truncates(x, j, mant, sticky)
  {
    var lo := Shl(mant / 4, j);
    ShlShl(mant / 4, j, n);
    assert j + n == n + j;
    ShlParts(mant / 4, mant % 4, n + j);
    ShlShl(mant % 4, n, j);
    ShlSum(t, Shl(mant % 4, n), r, j);
    assert 4 * Shl(x, n) == 4 * Shl(lo, n) + Shl(t, j);
    ShlOrder(x, lo, n);
    ShlAdd(lo, x - lo, n);
    QuartersAgainst(x - lo, j, t, n);
  }

  lemma ShlOfDigit(low: nat, n: nat)
    requires low < 4
    ensures Shl(low, n) == low * Pow2(n)
  {
    ShlIsProduct(low, n);
  }

  /** The sticky bit says whether anything was dropped. */
  lemma RemainderTruncates(x: nat, j: nat, mant: nat, n: nat, r: nat)
    requires r < Pow2(n)
    requires 4 * Shl(x, n) == Shl(mant, n + j) + Shl(r, j)
    ensures Truncates(x, j, mant, r != 0)
  {
    var low := mant % 4;
    ShlOfDigit(low, n);
    assert low == 0 || low == 1 || low == 2 || low == 3;
    ScaledTruncates(x, j, mant, n, r, Shl(low, n) + r, r != 0);
  }

  /**
   After the mantissa has been moved left by one, the fraction may reach up to two units. The sticky
   bit still suffices, because the bit that would have to be corrected is below the round bit.
   */
  lemma DoubledRemainderTruncates(x: nat, j: nat, mant: nat, n: nat, r: nat)
    requires 0 < r < 2 * Pow2(n) && mant % 2 == 0
    requires 4 * Shl(x, n) == Shl(mant, n + j) + Shl(r, j)
    ensures Truncates(x, j, mant, true)
  {
    var low := mant % 4;
    ShlOfDigit(low, n);
    assert low == 0 || low == 2;
    ScaledTruncates(x, j, mant, n, r, Shl(low, n) + r, true);
  }

  lemma PartsTruncate(x: nat, q: nat, r: nat, m: nat, j: nat, n: nat)
    requires r < Pow2(n) && m == Shl(q, n) + r
    requires 4 * Shl(x, n) == Shl(m, j)
    ensures Truncates(x, j, q, r != 0)
  {
    ShlSum(m, Shl(q, n), r, j);
    ShlShl(q, n, j);
    RemainderTruncates(x, j, q, n, r);
  }

  /** A right shift with its sticky bit truncates. */
  lemma ShiftTruncates(x: nat, m: nat, j: nat, n: nat)
    requires 4 * Shl(x, n) == Shl(m, j)
    ensures Truncates(x, j, Shr(m, n), Low(m, n) != 0)
  {
    ShrLow(m, n);
    PartsTruncate(x, Shr(m, n), Low(m, n), m, j, n);
  }

  lemma OverflowBound(x: nat, k: nat)
    requires Pow2(k + 277) <= x
    ensures RoundsTiesToEven(x, k, INFINITY)
  {
    Pow2Values();
    ShlOrder(0x200_0000, 0x1FF_FFFF, k + 252);
    ShlOfPow2(25, k + 252);
  }
}
