/** The results of float32_add and float32_mul that are no numbers, in the terms of IEEE 754-2008. */
module FloatSpecials {
  import opened Powers
  import opened Shifts
  import opened Binary32
  import opened Addition
  import opened Multiplication

  /** Section 6.2.1 of IEEE 754-2008: the first bit of the fraction tells a quiet NaN. */
  predicate IsQuiet(f: word) { IsNaN(f) && 0x40_0000 <= Fraction(f) }

  /** Section 7.2: infinities of opposite signs have no sum ... */
  predicate InvalidSum(a: word, b: word) { IsInf(a) && IsInf(b) && Sign(a) != Sign(b) }

  /** ... and zero times infinity is no product. */
  predicate InvalidProduct(a: word, b: word) { (IsZero(a) && IsInf(b)) || (IsInf(a) && IsZero(b)) }

  lemma RoundedIsNumber(x: nat, k: nat, res: word)
    requires RoundsTiesToEven(x, k, Unsigned(res))
    ensures !IsNaN(res) && (IsInf(res) <==> Overflows(x, k))
  {
    hide AtLeastAsNear, Overflows;
    UnsignedFields(res);
    assert Unsigned(res) <= 0x7F80_0000;
  }

  /** A sum is a NaN exactly if an operand is one or the operation is invalid, and then it is that NaN or a quiet one. */
  lemma SumIsNaN(a: word, b: word, res: word)
    requires IsSum(a, b, res)
    ensures IsNaN(res) <==> IsNaN(a) || IsNaN(b) || InvalidSum(a, b)
    ensures IsNaN(a) || IsNaN(b) ==> res == if IsNaN(a) then a else b
    ensures InvalidSum(a, b) ==> IsQuiet(res)
  {
    hide RoundsTiesToEven;
    if IsFinite(a) && IsFinite(b) {
      RoundedIsNumber(Magnitude(SignedValue(a) + SignedValue(b)), 0, res);
    }
  }

  /** A sum is infinite exactly if an operand is and the operation is valid, or the exact sum overflows. */
  lemma SumIsInfinite(a: word, b: word, res: word)
    requires IsSum(a, b, res) && !IsNaN(res)
    ensures IsInf(res) <==>
              IsInf(a) || IsInf(b)
              || (IsFinite(a) && IsFinite(b) && Overflows(Magnitude(SignedValue(a) + SignedValue(b)), 0))
    ensures IsInf(a) ==> Sign(res) == Sign(a)
    ensures IsInf(b) ==> Sign(res) == Sign(b)
  {
    hide RoundsTiesToEven, Overflows;
    SumIsNaN(a, b, res);
    if IsFinite(a) && IsFinite(b) {
      RoundedIsNumber(Magnitude(SignedValue(a) + SignedValue(b)), 0, res);
    }
  }

  /** Likewise for products. */
  lemma ProductIsNaN(a: word, b: word, res: word)
    requires IsProduct(a, b, res)
    ensures IsNaN(res) <==> IsNaN(a) || IsNaN(b) || InvalidProduct(a, b)
    ensures IsNaN(a) || IsNaN(b) ==> res == if IsNaN(a) then a else b
    ensures InvalidProduct(a, b) ==> IsQuiet(res)
  {
    hide RoundsTiesToEven;
    if IsFinite(a) && IsFinite(b) {
      RoundedIsNumber(ExactProduct(a, b), 149, res);
    }
  }

  lemma ProductIsInfinite(a: word, b: word, res: word)
    requires IsProduct(a, b, res) && !IsNaN(res)
    ensures IsInf(res) <==>
              IsInf(a) || IsInf(b) || (IsFinite(a) && IsFinite(b) && Overflows(ExactProduct(a, b), 149))
    ensures Sign(res) == 0 <==> Sign(a) == Sign(b)
  {
    hide RoundsTiesToEven, Overflows, ExactProduct;
    ProductIsNaN(a, b, res);
    if IsFinite(a) && IsFinite(b) {
      RoundedIsNumber(ExactProduct(a, b), 149, res);
    }
  }

  /** The threshold is half way between the largest finite number and 2^128, in units of 2^-149. */
  lemma OverflowThreshold(x: nat)
    ensures Overflows(x, 0) <==> Shl(2, 276) - Shl(1, 252) <= x
  {
    Pow2Values();
    assert Pow2(1) == 2;
    ShlOfPow2(1, 24);
    hide Shl, Pow2;
    ShlShl(2, 24, 252);
    ShlSum(0x200_0000, 0x1FF_FFFF, 1, 252);
  }
}
