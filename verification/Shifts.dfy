/** Left and right shifts of naturals, defined bit by bit, and their laws. */
module Shifts {
  import opened Powers

  /** m << k, on unbounded naturals */
  function Shl(m: nat, k: nat): (r: nat)
    decreases k, m
  {
    if k == 0 then m else 2 * Shl(m, k - 1)
  }

  /** m >> k */
  function Shr(m: nat, k: nat): (r: nat)
    decreases k, m
  {
    if k == 0 then m else Shr(m / 2, k - 1)
  }

  /** The low k bits of m, which m >> k drops. */
  function Low(m: nat, k: nat): (r: nat)
    decreases k, m
  {
    if k == 0 then 0 else m % 2 + 2 * Low(m / 2, k - 1)
  }

  lemma {:induction false} ShlIsProduct(m: nat, k: nat)
    ensures Shl(m, k) == m * Pow2(k)
    decreases k
  {
    if k > 0 {
      ShlIsProduct(m, k - 1);
      MulAssoc(2, m, Pow2(k - 1));
      MulAssoc(m, 2, Pow2(k - 1));
    }
  }

  lemma {:induction false} ShlShl(m: nat, j: nat, k: nat)
    ensures Shl(Shl(m, j), k) == Shl(m, j + k)
    decreases k
  {
    if k > 0 {
      ShlShl(m, j, k - 1);
    }
  }

  lemma {:induction false} ShlAdd(m: nat, n: nat, k: nat)
    ensures Shl(m + n, k) == Shl(m, k) + Shl(n, k)
    decreases k
  {
    if k > 0 {
      ShlAdd(m, n, k - 1);
    }
  }

  lemma ShlSum(s: nat, m: nat, n: nat, k: nat)
    requires s == m + n
    ensures Shl(s, k) == Shl(m, k) + Shl(n, k)
  {
    ShlAdd(m, n, k);
  }

  lemma {:induction false} ShlDouble(m: nat, k: nat)
    ensures Shl(2 * m, k) == 2 * Shl(m, k)
    decreases k
  {
    if k > 0 {
      ShlDouble(m, k - 1);
    }
  }

  lemma ShlQuadruple(m: nat, k: nat)
    ensures Shl(4 * m, k) == 4 * Shl(m, k)
  {
    var d := 2 * m;
    ShlDouble(m, k);
    ShlDouble(d, k);
    assert 4 * m == 2 * d;
  }

  lemma {:induction false} ShlOrder(m: nat, n: nat, k: nat)
    ensures Shl(m, k) < Shl(n, k) <==> m < n
    ensures Shl(m, k) == Shl(n, k) <==> m == n
    decreases k
  {
    if k > 0 {
      ShlOrder(m, n, k - 1);
    }
  }

  lemma {:induction false} ShlOfPow2(j: nat, k: nat)
    ensures Shl(Pow2(j), k) == Pow2(j + k)
    decreases k
  {
    if k > 0 {
      ShlOfPow2(j, k - 1);
    }
  }

  lemma {:induction false} ShlOfZero(k: nat)
    ensures Shl(0, k) == 0
    decreases k
  {
    if k > 0 {
      ShlOfZero(k - 1);
    }
  }

  lemma {:induction false} ShlMul(m: nat, j: nat, n: nat, k: nat)
    ensures Shl(m, j) * Shl(n, k) == Shl(m * n, j + k)
  {
    ShlIsProduct(m, j);
    ShlIsProduct(n, k);
    ShlIsProduct(m * n, j + k);
    Pow2Add(j, k);
    FourFactors(m, Pow2(j), n, Pow2(k));
  }

  lemma FourFactors(a: int, b: int, c: int, d: int)
    ensures (a * b) * (c * d) == (a * c) * (b * d)
  {
    MulAssoc(a, b, c * d);
    MulAssoc(a, c, b * d);
    assert b * (c * d) == c * (b * d) by {
      MulAssoc(b, c, d);
      MulAssoc(c, b, d);
    }
  }

  /** A shift right and the bits it drops put the number together again. */
  lemma {:induction false} ShrLow(m: nat, k: nat)
    ensures m == Shl(Shr(m, k), k) + Low(m, k)
    ensures Low(m, k) < Pow2(k)
    decreases k
  {
    if k > 0 {
      ShrLow(m / 2, k - 1);
    }
  }

  lemma {:induction false} ShrShr(m: nat, j: nat, k: nat)
    ensures Shr(Shr(m, j), k) == Shr(m, j + k)
    ensures Low(m, j + k) == Low(m, j) + Shl(Low(Shr(m, j), k), j)
    decreases j
  {
    if j > 0 {
      ShrShr(m / 2, j - 1, k);
    }
  }

  /** Moving a number to the top of the word keeps the low bits, and nothing else. */
  lemma {:induction false} LowOfShl(m: nat, j: nat, k: nat)
    ensures Low(Shl(m, k), j + k) == Shl(Low(m, j), k)
    decreases k
  {
    if k > 0 {
      LowOfShl(m, j, k - 1);
      assert Shl(m, k) / 2 == Shl(m, k - 1) && Shl(m, k) % 2 == 0;
    }
  }

  lemma {:induction false} ShrBelow(m: nat, j: nat, k: nat)
    ensures m < Pow2(j + k) <==> Shr(m, k) < Pow2(j)
    decreases k
  {
    if k > 0 {
      ShrBelow(m / 2, j, k - 1);
      Pow2Step(j + k - 1);
    }
  }

  lemma {:induction false} ShrOfSmall(m: nat, k: nat)
    requires m < Pow2(k)
    ensures Shr(m, k) == 0 && Low(m, k) == m
    decreases k
  {
    if k > 0 {
      ShrOfSmall(m / 2, k - 1);
    }
  }

  /** The two shifts, with their sticky bits, are one. */
  lemma TwoShifts(m: nat, s: nat, c: nat)
    ensures Shr(Shr(m, s), c) == Shr(m, s + c)
    ensures Low(m, s + c) != 0 <==> Low(m, s) != 0 || Low(Shr(m, s), c) != 0
  {
    ShrShr(m, s, c);
    ShlOrder(Low(Shr(m, s), c), 0, s);
    ShlOfZero(s);
  }

  lemma {:induction false} ShrOfSum(m: nat, q: nat, k: nat)
    ensures Shr(m + Shl(q, k), k) == Shr(m, k) + q
    decreases k
  {
    if k > 0 {
      assert (m + Shl(q, k)) / 2 == m / 2 + Shl(q, k - 1);
      ShrOfSum(m / 2, q, k - 1);
    }
  }

  lemma ShrIsQuotient(m: nat, k: nat)
    ensures Shr(m, k) == m / Pow2(k) && Low(m, k) == m % Pow2(k)
  {
    ShrLow(m, k);
    ShlIsProduct(Shr(m, k), k);
    DivUnique(m, Pow2(k), Shr(m, k), Low(m, k));
  }
}
