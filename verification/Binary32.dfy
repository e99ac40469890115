/**
 The binary32 format as a set of bit patterns, and the rounding rule of section 4.3.1 of
 IEEE 754-2008, stated without reference to any algorithm.

 A word is the 32-bit pattern of the C program's `int`. A magnitude is such a pattern without its
 sign bit. Every finite binary32 number is an integer multiple of 2^-149, so finite values are
 naturals in that unit; exact results may need a finer unit, 2^-(149+k), and are naturals in that.
 */
module Binary32 {
  import opened Shifts

  type word = w: int | 0 <= w < 0x1_0000_0000

  /** The pattern of infinity; the finite magnitudes are the naturals below it. */
  const INFINITY: nat := 0x7F80_0000
  const QNAN: word := 0x7FC0_0000

  function Sign(f: word): (s: nat) { f / 0x8000_0000 }

  function Exponent(f: word): (e: nat) { f / 0x80_0000 % 0x100 }

  function Fraction(f: word): (m: nat) { f % 0x80_0000 }

  function Unsigned(f: word): (n: nat) { f % 0x8000_0000 }

  /** f32_build */
  function Build(sign: nat, exp: nat, frac: nat): (f: word)
    requires sign <= 1 && exp <= 255 && frac < 0x80_0000
    ensures Sign(f) == sign && Exponent(f) == exp && Fraction(f) == frac
    ensures Unsigned(f) == exp * 0x80_0000 + frac
  {
    sign * 0x8000_0000 + exp * 0x80_0000 + frac
  }

  predicate IsNaN(f: word) { Exponent(f) == 255 && Fraction(f) != 0 }

  predicate IsInf(f: word) { Exponent(f) == 255 && Fraction(f) == 0 }

  predicate IsZero(f: word) { Exponent(f) == 0 && Fraction(f) == 0 }

  predicate IsNormal(f: word) { Exponent(f) != 0 && Exponent(f) != 255 }

  predicate IsDenormal(f: word) { Exponent(f) == 0 && Fraction(f) != 0 }

  predicate IsFinite(f: word) { Exponent(f) != 255 }

  lemma UnsignedFields(f: word)
    ensures Unsigned(f) / 0x80_0000 == Exponent(f) && Unsigned(f) % 0x80_0000 == Fraction(f)
    ensures IsFinite(f) ==> Unsigned(f) < INFINITY
  {
    var upper := f / 0x80_0000;
    assert f == upper / 0x100 * 0x8000_0000 + (Exponent(f) * 0x80_0000 + Fraction(f));
    assert Unsigned(f) == Exponent(f) * 0x80_0000 + Fraction(f);
  }

  /** The value of a magnitude, in units of 2^-149. At INFINITY it is 2^128, the next power. */
  ghost function Value(n: nat): (v: nat)
    requires n <= INFINITY
  {
    var e, m := n / 0x80_0000, n % 0x80_0000;
    if e == 0 then m else Shl(m + 0x80_0000, e - 1)
  }

  ghost function FiniteValue(f: word): (v: nat)
    requires IsFinite(f)
  {
    UnsignedFields(f);
    Value(Unsigned(f))
  }

  /** x, in units of 2^-(149+k), is at least b^emax * (b - b^(1-p) / 2), where infinity begins. */
  ghost predicate Overflows(x: nat, k: nat) { Shl(0x1FF_FFFF, k + 252) <= x }

  ghost function Distance(x: int, y: int): (d: nat) { if x <= y then y - x else x - y }

  /** n is the magnitude that roundTiesToEven delivers for x, which is given in units of 2^-(149+k). */
  ghost predicate RoundsTiesToEven(x: nat, k: nat, n: nat) {
    if Overflows(x, k) then
      n == INFINITY
    else
      n < INFINITY && forall m: nat | m < INFINITY :: AtLeastAsNear(x, k, n, m)
  }

  ghost predicate AtLeastAsNear(x: nat, k: nat, n: nat, m: nat)
    requires n < INFINITY && m < INFINITY
  {
    var dn, dm := Distance(x, Shl(Value(n), k)), Distance(x, Shl(Value(m), k));
    dn <= dm && (dn == dm && m != n ==> n % 2 == 0)
  }

  /** The magnitude with exponent field e and integer significand q. */
  ghost function Pattern(e: nat, q: nat): (n: nat)
    requires e <= 254 && InBinade(e, q)
    ensures n < INFINITY
  {
    if e == 0 then q else e * 0x80_0000 + (q - 0x80_0000)
  }

  lemma PatternFields(e: nat, q: nat)
    requires e <= 254 && InBinade(e, q)
    ensures Pattern(e, q) / 0x80_0000 == e && Pattern(e, q) % 2 == q % 2
    ensures Pattern(e, q) % 0x80_0000 == if e == 0 then q else q - 0x80_0000
  {
  }

  predicate InBinade(e: nat, q: nat) {
    if e == 0 then q < 0x80_0000 else 0x80_0000 <= q < 0x100_0000
  }

  ghost function Scale(e: nat): (s: nat) { if e == 0 then 0 else e - 1 }

  lemma PatternValue(e: nat, q: nat)
    requires e <= 254 && InBinade(e, q)
    ensures Value(Pattern(e, q)) == Shl(q, Scale(e))
    ensures Value(Pattern(e, q) + 1) == Shl(q + 1, Scale(e))
  {
    var n := Pattern(e, q);
    PatternFields(e, q);
    if q == 0xFF_FFFF {
      assert n + 1 == (e + 1) * 0x80_0000;
      ShlTwice(0x80_0000, e - 1);
    } else if q == 0x7F_FFFF {
      assert n + 1 == 0x80_0000;
    } else {
      assert n + 1 == Pattern(e, q + 1);
      PatternFields(e, q + 1);
    }
  }

  lemma ShlTwice(m: nat, k: nat)
    ensures Shl(2 * m, k) == Shl(m, k + 1)
  {
    assert Shl(m, 1) == 2 * m by {
      assert Shl(m, 0) == m;
    }
    ShlShl(m, 1, k);
  }

  /** Every finite magnitude is the pattern of its fields. */
  lemma PatternOfFields(n: nat) returns (e: nat, q: nat)
    requires n < INFINITY
    ensures e <= 254 && InBinade(e, q) && Pattern(e, q) == n
  {
    e := n / 0x80_0000;
    q := if e == 0 then n else n % 0x80_0000 + 0x80_0000;
  }

  lemma ValueStep(n: nat)
    requires n < INFINITY
    ensures Value(n) < Value(n + 1)
  {
    var e, q := PatternOfFields(n);
    PatternValue(e, q);
    ShlOrder(q, q + 1, Scale(e));
  }

  /** Patterns are ordered as the numbers they encode. */
  lemma {:induction false} ValueMono(m: nat, n: nat)
    requires m < n <= INFINITY
    ensures Value(m) < Value(n)
    decreases n
  {
    ValueStep(n - 1);
    if m < n - 1 {
      ValueMono(m, n - 1);
    }
  }

  lemma ScaledMono(m: nat, n: nat, k: nat)
    requires m < n <= INFINITY
    ensures Shl(Value(m), k) < Shl(Value(n), k)
  {
    ValueMono(m, n);
    ShlOrder(Value(m), Value(n), k);
  }

  /** The bound is the midpoint of the binade step from the largest finite number to 2^128. */
  lemma OverflowMidpoint(k: nat)
    ensures 2 * Shl(0x1FF_FFFF, k + 252) == 2 * Shl(0xFF_FFFF, k + 253) + Shl(1, k + 253)
  {
    ShlTwice(0xFF_FFFF, k + 252);
    ShlTwice(1, k + 252);
    ShlAdd(0x1FF_FFFE, 1, k + 252);
  }

  lemma NeighbourValues(k: nat, e: nat, q: nat)
    requires e <= 254 && InBinade(e, q)
    ensures Shl(Value(Pattern(e, q)), k) == Shl(q, k + Scale(e))
    ensures Shl(Value(Pattern(e, q) + 1), k) == Shl(q, k + Scale(e)) + Shl(1, k + Scale(e))
  {
    PatternValue(e, q);
    assert Scale(e) + k == k + Scale(e);
    ShlShl(q, Scale(e), k);
    ShlShl(q + 1, Scale(e), k);
    ShlAdd(q, 1, k + Scale(e));
  }

  /** Rounding between two neighbours of one binade decides for the whole format. */
  lemma NeighboursDecide(x: nat, k: nat, e: nat, q: nat, up: bool)
    requires e <= 254 && InBinade(e, q)
    requires var lo, w := Shl(q, k + Scale(e)), Shl(1, k + Scale(e));
             lo <= x < lo + w && (up <==> 2 * lo + w < 2 * x || (2 * lo + w == 2 * x && q % 2 == 1))
    ensures RoundsTiesToEven(x, k, Pattern(e, q) + if up then 1 else 0)
  {
    var p := Pattern(e, q);
    PatternFields(e, q);
    NeighbourValues(k, e, q);
    if p + 1 < INFINITY {
      TopIsBelowOverflow(p + 1, k);
      NearestOfTwo(x, k, p, up);
    } else {
      LastIsTop(e, q);
      OverflowMidpoint(k);
      if !Overflows(x, k) {
        NearestOfTwo(x, k, p, up);
      }
    }
  }

  lemma LastIsTop(e: nat, q: nat)
    requires e <= 254 && InBinade(e, q) && Pattern(e, q) + 1 == INFINITY
    ensures e == 254 && q == 0xFF_FFFF
  {
  }

  lemma TopIsBelowOverflow(n: nat, k: nat)
    requires n < INFINITY
    ensures !Overflows(Shl(Value(n), k), k)
  {
    var top :| top + 1 == INFINITY;
    TopValue(top, k);
    if n < top {
      ScaledMono(n, top, k);
    }
  }

  lemma TopValue(top: nat, k: nat)
    requires top + 1 == INFINITY
    ensures !Overflows(Shl(Value(top), k), k)
  {
    var e, q := PatternOfFields(top);
    NeighbourValues(k, e, q);
    OverflowMidpoint(k);
    ShlOrder(0, 1, k + 253);
    ShlOfZero(k + 253);
  }

  lemma NearestOfTwo(x: nat, k: nat, p: nat, up: bool)
    requires p < INFINITY && !Overflows(x, k)
    requires var lo, hi := Shl(Value(p), k), Shl(Value(p + 1), k);
             lo <= x < hi && (up <==> lo + hi < 2 * x || (lo + hi == 2 * x && p % 2 == 1))
    requires up ==> p + 1 < INFINITY
    ensures RoundsTiesToEven(x, k, p + if up then 1 else 0)
  {
    var n := p + if up then 1 else 0;
    forall m: nat | m < INFINITY
      ensures AtLeastAsNear(x, k, n, m)
    {
      if m < p {
        ScaledMono(m, p, k);
      } else if m > p + 1 {
        ScaledMono(p + 1, m, k);
      }
    }
  }

  /** The rule determines its result: the float between two equally near even ones is nearer. */
  lemma RoundingIsUnique(x: nat, k: nat, n: nat, n': nat)
    requires RoundsTiesToEven(x, k, n) && RoundsTiesToEven(x, k, n')
    ensures n == n'
  {
    if n < n' && n' < INFINITY {
      NoTwoNearest(x, k, n, n');
    } else if n' < n && n < INFINITY {
      NoTwoNearest(x, k, n', n);
    }
  }

  lemma NoTwoNearest(x: nat, k: nat, n: nat, n': nat)
    requires n < n' < INFINITY
    requires forall m: nat | m < INFINITY :: AtLeastAsNear(x, k, n, m)
    ensures !AtLeastAsNear(x, k, n', n)
  {
    assert AtLeastAsNear(x, k, n, n') && AtLeastAsNear(x, k, n, n + 1);
    ScaledMono(n, n + 1, k);
    if n + 1 < n' {
      ScaledMono(n + 1, n', k);
    }
  }

  /** A representable value is delivered exactly. */
  lemma RoundingIsExact(k: nat, n: nat)
    requires n < INFINITY
    ensures RoundsTiesToEven(Shl(Value(n), k), k, n)
  {
    TopIsBelowOverflow(n, k);
    forall m: nat | m < INFINITY
      ensures AtLeastAsNear(Shl(Value(n), k), k, n, m)
    {
      if m < n {
        ScaledMono(m, n, k);
      } else if n < m {
        ScaledMono(n, m, k);
      }
    }
  }

  lemma WordOfParts(f: word, g: word)
    requires Sign(f) == Sign(g) && Unsigned(f) == Unsigned(g)
    ensures f == g
  {
    assert f == Sign(f) * 0x8000_0000 + Unsigned(f);
    assert g == Sign(g) * 0x8000_0000 + Unsigned(g);
  }
}
