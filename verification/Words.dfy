/** 64-bit words as naturals: the operations that simulate uses, and what they are mathematically. */
module Words {
  import opened Basics
  import opened Powers
  import opened Shifts

  lemma WordIsPow2()
    ensures WORD == Pow2(64)
  {
    assert Pow2(8) == 0x100;
    hide Pow2;
    Pow2Add(8, 8);
    assert Pow2(16) == 0x1_0000;
    Pow2Add(16, 16);
    assert Pow2(32) == 0x1_0000_0000;
    Pow2Add(32, 32);
  }

  // ----- the operators on words -----

  function BitAnd(a: nat, b: nat): (r: nat) {
    if a == 0 || b == 0 then 0 else (if a % 2 == 1 && b % 2 == 1 then 1 else 0) + 2 * BitAnd(a / 2, b / 2)
  }

  function BitOr(a: nat, b: nat): (r: nat) {
    if a == 0 then b
    else if b == 0 then a
    else (if a % 2 == 1 || b % 2 == 1 then 1 else 0) + 2 * BitOr(a / 2, b / 2)
  }

  function BitXor(a: nat, b: nat): (r: nat) {
    if a == 0 then b
    else if b == 0 then a
    else (if a % 2 != b % 2 then 1 else 0) + 2 * BitXor(a / 2, b / 2)
  }

  function Add64(a: nat, b: nat): (r: nat) { Low(a + b, 64) }

  function Sub64(a: nat, b: nat): (r: nat)
    requires a < WORD && b < WORD
  {
    if b <= a then a - b else a + WORD - b
  }

  function Mul64(a: nat, b: nat): (r: nat) { Low(a * b, 64) }

  /** clear_unused_bits */
  function ClearUnusedBits(value: nat, width: nat): (r: nat)
    requires width <= 64
  {
    if width == 64 then value
    else
      var mask := Mask(width);
      BitAnd(value, mask)
  }

  /** (1 << width) - 1 */
  function Mask(width: nat): (m: nat)
  {
    ShlIsPositive(1, width);
    Shl(1, width) - 1
  }

  lemma {:induction false} ShlIsPositive(m: nat, k: nat)
    requires 0 < m
    ensures 0 < Shl(m, k)
    decreases k
  {
    if k > 0 {
      ShlIsPositive(m, k - 1);
    }
  }

  // ----- their meaning -----

  lemma BitAndStep(a: nat, b: nat)
    ensures BitAnd(a, b) == (if a % 2 == 1 && b % 2 == 1 then 1 else 0) + 2 * BitAnd(a / 2, b / 2)
  {
    if a == 0 || b == 0 {
      assert BitAnd(a / 2, b / 2) == 0;
    }
  }

  lemma MaskStep(width: nat)
    requires width > 0
    ensures Mask(width) % 2 == 1 && Mask(width) / 2 == Mask(width - 1)
  {
    ShlIsPositive(1, width - 1);
    assert Mask(width) == 2 * Mask(width - 1) + 1;
  }

  lemma {:induction false} MaskKeepsLowBits(value: nat, width: nat)
    ensures BitAnd(value, Mask(width)) == Low(value, width)
    decreases width
  {
    if width > 0 {
      hide BitAnd, Mask;
      MaskStep(width);
      BitAndStep(value, Mask(width));
      MaskKeepsLowBits(value / 2, width - 1);
    }
  }

  lemma {:induction false} LowOfZero(k: nat)
    ensures Low(0, k) == 0
    decreases k
  {
    if k > 0 {
      LowOfZero(k - 1);
    }
  }

  lemma ClearedIsLow(value: nat, width: nat)
    requires width <= 64 && value < WORD
    ensures ClearUnusedBits(value, width) == Low(value, width)
  {
    WordIsPow2();
    if width == 64 {
      ShrOfSmall(value, width);
    } else {
      MaskKeepsLowBits(value, width);
    }
  }

  lemma {:induction false} LowOfLow(m: nat, j: nat, k: nat)
    requires k <= j
    ensures Low(Low(m, j), k) == Low(m, k)
    decreases k
  {
    if k > 0 {
      assert Low(m, j) / 2 == Low(m / 2, j - 1) && Low(m, j) % 2 == m % 2;
      LowOfLow(m / 2, j - 1, k - 1);
    }
  }

  lemma {:induction false} LowOfSum(m: nat, q: nat, k: nat)
    ensures Low(m + Shl(q, k), k) == Low(m, k)
    decreases k
  {
    if k > 0 {
      assert (m + Shl(q, k)) / 2 == m / 2 + Shl(q, k - 1) && (m + Shl(q, k)) % 2 == m % 2;
      LowOfSum(m / 2, q, k - 1);
    }
  }

  lemma LowBelow(m: nat, k: nat)
    ensures Low(m, k) < Pow2(k)
  {
    ShrLow(m, k);
  }

  /** Difference modulo 2^w of two w-bit numbers. */
  function Difference(a: nat, b: nat, w: nat): (d: nat)
    requires b <= Pow2(w)
  {
    a + Pow2(w) - b
  }

  lemma AddIsModular(a: nat, b: nat, w: nat)
    requires w <= 64
    ensures ClearUnusedBits(Add64(a, b), w) == Low(a + b, w)
  {
    WordIsPow2();
    LowBelow(a + b, 64);
    ClearedIsLow(Add64(a, b), w);
    LowOfLow(a + b, 64, w);
  }

  lemma MulIsModular(a: nat, b: nat, w: nat)
    requires w <= 64
    ensures ClearUnusedBits(Mul64(a, b), w) == Low(a * b, w)
  {
    WordIsPow2();
    LowBelow(a * b, 64);
    ClearedIsLow(Mul64(a, b), w);
    LowOfLow(a * b, 64, w);
  }

  lemma WordFromWidth(w: nat)
    requires w <= 64
    ensures WORD == Shl(Pow2(64 - w), w) && Pow2(w) <= WORD
  {
    WordIsPow2();
    ShlOfPow2(64 - w, w);
    Pow2Mono(w, 64);
  }

  lemma SubIsModular(a: nat, b: nat, w: nat)
    requires w <= 64 && a < Pow2(w) && b < Pow2(w)
    ensures a < WORD && b < WORD && ClearUnusedBits(Sub64(a, b), w) == Low(Difference(a, b, w), w)
  {
    hide Low, Pow2, Shl, BitAnd, ClearUnusedBits, Sub64;
    WordFromWidth(w);
    SubDefinition(a, b);
    var s := Sub64(a, b);
    ClearedIsLow(s, w);
    SubLow(s, a, b, w);
  }

  lemma SubLow(s: nat, a: nat, b: nat, w: nat)
    requires w <= 64 && a < Pow2(w) && b < Pow2(w) && s + b == if b <= a then a else a + WORD
    ensures Low(s, w) == Low(Difference(a, b, w), w)
  {
    hide Low, Pow2, Shl;
    if b <= a {
      OneMoreRound(s, w);
    } else {
      WrapAround(s, a, b, w);
    }
  }

  lemma SubDefinition(a: nat, b: nat)
    requires a < WORD && b < WORD
    ensures Sub64(a, b) < WORD && Sub64(a, b) + b == if b <= a then a else a + WORD
  {
  }

  lemma OneMoreRound(d: nat, w: nat)
    ensures Low(d + Pow2(w), w) == Low(d, w)
  {
    ShlOfPow2(0, w);
    assert Pow2(0) == 1;
    LowOfSum(d, 1, w);
  }

  /** What 64 bits borrow above w bits does not show in w bits. */
  lemma WrapAround(s: nat, a: nat, b: nat, w: nat)
    requires w <= 64 && a < b < Pow2(w) && s + b == a + WORD
    ensures Low(s, w) == Low(Difference(a, b, w), w)
  {
    assert Pow2(0) == 1;
    hide Low, Pow2, Shl;
    WordFromWidth(w);
    ShlOfPow2(0, w);
    var q: nat := Pow2(64 - w) - 1;
    ShlSum(Pow2(64 - w), q, 1, w);
    LowOfSum(Difference(a, b, w), q, w);
  }

  // ----- single bits -----

  lemma BitsOfOperators(a: nat, b: nat)
    requires a <= 1 && b <= 1
    ensures BitAnd(a, b) == (if a == 1 && b == 1 then 1 else 0)
    ensures BitOr(a, b) == (if a == 1 || b == 1 then 1 else 0)
    ensures BitXor(a, b) == (if a != b then 1 else 0)
  {
    assert a / 2 == 0 && b / 2 == 0;
    assert BitAnd(0, 0) == 0 && BitOr(0, 0) == 0 && BitXor(0, 0) == 0;
  }

  lemma LastBit(v: nat)
    ensures BitAnd(v, 1) == v % 2
  {
    assert BitAnd(v / 2, 1 / 2) == 0;
  }

  /** Bits above a number: "or" is plus. */
  lemma {:induction false} OrAbove(v: nat, x: nat, i: nat)
    requires v < Pow2(i)
    ensures BitOr(v, Shl(x, i)) == v + Shl(x, i)
    decreases i
  {
    if i > 0 && v > 0 && x > 0 {
      OrAbove(v / 2, x, i - 1);
      ShlIsPositive(x, i - 1);
    } else if x == 0 {
      ShlOfZero(i);
    }
  }

  /** "Exclusive or" with one bit flips it. */
  lemma {:induction false} XorBit(v: nat, k: nat)
    requires v < Pow2(k + 1)
    ensures Pow2(k) == Shl(1, k)
    ensures BitXor(v, Shl(1, k)) == if v < Pow2(k) then v + Pow2(k) else v - Pow2(k)
    decreases k
  {
    hide BitXor;
    XorStep(v, Shl(1, k));
    if k > 0 {
      XorBit(v / 2, k - 1);
    } else {
      XorZero(v / 2);
    }
  }

  lemma XorZero(a: nat)
    ensures BitXor(a, 0) == a
  {
  }

  lemma XorStep(a: nat, b: nat)
    ensures BitXor(a, b) == (if a % 2 != b % 2 then 1 else 0) + 2 * BitXor(a / 2, b / 2)
  {
    if a == 0 || b == 0 {
      assert BitXor(a / 2, b / 2) == a / 2 + b / 2;
    }
  }

  /** "And" with one bit tests it. */
  lemma {:induction false} AndBit(v: nat, k: nat)
    ensures BitAnd(v, Shl(1, k)) != 0 <==> Shr(v, k) % 2 == 1
    decreases k
  {
    if k > 0 {
      ShlIsPositive(1, k - 1);
      AndBit(v / 2, k - 1);
      BitAndStep(v, Shl(1, k));
    } else {
      LastBit(v);
    }
  }

  /** The number with the given bits, lowest first. */
  function Compose(bits: seq<nat>): (v: nat) {
    if bits == [] then 0 else Compose(bits[..|bits| - 1]) + Shl(bits[|bits| - 1], |bits| - 1)
  }

  lemma {:induction false} ComposeBelow(bits: seq<nat>)
    requires forall b | b in bits :: b <= 1
    ensures Compose(bits) < Pow2(|bits|)
    decreases |bits|
  {
    if bits != [] {
      var n, b := |bits| - 1, bits[|bits| - 1];
      assert b in bits && forall c | c in bits[..n] :: c in bits;
      ComposeBelow(bits[..n]);
      ShlOfPow2(0, n);
      assert Pow2(0) == 1;
      ShlOfZero(n);
      Pow2Step(n);
    }
  }

  /** Taking a number apart and putting it together again. */
  lemma {:induction false} ComposeOfBits(v: nat, n: nat, bits: seq<nat>)
    requires |bits| == n && forall i: nat | i < n :: bits[i] == Shr(v, i) % 2
    ensures Compose(bits) == Low(v, n)
    decreases n
  {
    if n > 0 {
      ComposeOfBits(v, n - 1, bits[..n - 1]);
      ShrShr(v, n - 1, 1);
      assert Low(Shr(v, n - 1), 1) == Shr(v, n - 1) % 2 + 2 * Low(Shr(v, n - 1) / 2, 0);
    }
  }
}
