/** The step-doubling count of leading zeros, for a scratch array of any length. */
module LeadingZeros {
  import opened Powers
  import opened Shifts

  /** Bit k of an n-bit value, counted from the most significant one. */
  function BitFromTop(value: nat, n: nat, k: nat): (b: bool)
    requires k < n
  {
    Shr(value, n - 1 - k) % 2 == 1
  }

  /** How many of the bits lo, lo + 1, ... below hi are zero before the first one. */
  function Zeros(value: nat, n: nat, lo: nat, hi: nat): (c: nat)
    requires lo <= hi <= n
    ensures c <= hi - lo
    decreases hi - lo
  {
    if lo == hi || BitFromTop(value, n, lo) then 0 else 1 + Zeros(value, n, lo + 1, hi)
  }

  function Min(a: int, b: int): (m: int) { if a <= b then a else b }

  /** A block is all zeros and the count goes on in the next one, or the count ends inside it. */
  lemma {:induction false} ZerosJoin(value: nat, n: nat, lo: nat, mid: nat, hi: nat)
    requires lo <= mid <= hi <= n
    ensures var left := Zeros(value, n, lo, mid);
            Zeros(value, n, lo, hi) == if left == mid - lo then left + Zeros(value, n, mid, hi) else left
    decreases mid - lo
  {
    if lo < mid && !BitFromTop(value, n, lo) {
      ZerosJoin(value, n, lo + 1, mid, hi);
    }
  }

  /** Counting from the top bounds the value from both sides. */
  lemma {:induction false} ZerosBoundValue(value: nat, n: nat, k: nat)
    requires k <= n && value < Pow2(n - k)
    ensures var c := k + Zeros(value, n, k, n);
            value < Pow2(n - c) && (c < n ==> Pow2(n - 1 - c) <= value)
    decreases n - k
  {
    if k < n {
      var h := n - 1 - k;
      ShrBelow(value, 0, h);
      ShrBelow(value, 1, h);
      assert Pow2(0) == 1 && Pow2(1) == 2;
      if !BitFromTop(value, n, k) {
        ZerosBoundValue(value, n, k + 1);
      }
    }
  }

  lemma BlockStarts(i: nat, step: nat)
    requires 0 < step && i % (2 * step) == 0
    ensures i % step == 0 && (i + step) % step == 0 && (i + 2 * step) % (2 * step) == 0
  {
    var j := i / (2 * step);
    assert i == j * (2 * step) + 0;
    MulAssoc(j, 2, step);
    DivUnique(i, step, 2 * j, 0);
    DivUnique(i + step, step, 2 * j + 1, 0);
    DivUnique(i + 2 * step, 2 * step, j + 1, 0);
  }

  lemma NextBlockStart(i: nat, p: nat, size: nat)
    requires 0 < size && i % size == 0 && p % size == 0 && p < i + size
    ensures p <= i
  {
    if p > i {
      assert i == (i / size) * size;
      assert p == (p / size) * size;
      MulCancel(i / size, p / size, size);
      MulMono(i / size + 1, p / size, size);
    }
  }

  /** The entry at p counts the zeros of the block of the given size that starts there. */
  ghost predicate Counts(store: seq<int>, value: nat, size: nat, p: int)
    requires 0 <= p < |store|
  {
    store[p] == Zeros(value, |store|, p, Min(p + size, |store|))
  }

  ghost predicate CountsBlocks(store: seq<int>, value: nat, size: nat, lo: nat, hi: nat)
    requires 0 < size
  {
    forall p | lo <= p < hi && p < |store| && p % size == 0 :: Counts(store, value, size, p)
  }

  lemma CountsJoin(store: seq<int>, value: nat, step: nat, i: nat, store': seq<int>)
    requires 0 < step && i + step < |store| && i % (2 * step) == 0
    requires CountsBlocks(store, value, 2 * step, 0, i) && CountsBlocks(store, value, step, i, |store|)
    requires store' == store[i := if store[i] == step then store[i] + store[i + step] else store[i]]
    ensures CountsBlocks(store', value, 2 * step, 0, i + 2 * step)
    ensures CountsBlocks(store', value, step, i + 2 * step, |store|)
  {
    BlockStarts(i, step);
    assert Counts(store, value, step, i) && Counts(store, value, step, i + step);
    ZerosJoin(value, |store|, i, i + step, Min(i + 2 * step, |store|));
    assert Counts(store', value, 2 * step, i);
    forall p | 0 <= p < i + 2 * step && p < |store| && p % (2 * step) == 0
      ensures Counts(store', value, 2 * step, p)
    {
      NextBlockStart(i, p, 2 * step);
      if p < i {
        assert Counts(store, value, 2 * step, p);
      }
    }
    forall p | i + 2 * step <= p < |store| && p % step == 0
      ensures Counts(store', value, step, p)
    {
      assert Counts(store, value, step, p);
    }
  }

  /** A last block without a partner already counts to the end of the array. */
  lemma CountsTail(store: seq<int>, value: nat, step: nat, i: nat)
    requires 0 < step && i % (2 * step) == 0 && |store| <= i + step
    requires CountsBlocks(store, value, 2 * step, 0, i) && CountsBlocks(store, value, step, i, |store|)
    ensures CountsBlocks(store, value, 2 * step, 0, |store|)
  {
    forall p | 0 <= p < |store| && p % (2 * step) == 0
      ensures Counts(store, value, 2 * step, p)
    {
      if p < i {
        assert Counts(store, value, 2 * step, p);
      } else {
        BlockStarts(p, step);
        assert Counts(store, value, step, p);
      }
    }
  }

  /** leading_zeroes_26_add and leading_zeroes_24_add, with n for the array length. */
  method LeadingZeroes(value: nat, n: nat) returns (zeroes: nat)
    requires 0 < n && value < Pow2(n)
    ensures zeroes == Zeros(value, n, 0, n) && value < Pow2(n - zeroes)
    ensures zeroes < n ==> Pow2(n - 1 - zeroes) <= value
  {
    var store := new int[n];
    var i := 0;
    while i < n
      invariant 0 <= i <= n
      invariant CountsBlocks(store[..], value, 1, 0, i)
    {
      ghost var before := store[..];
      store[i] := if Shr(value, n - 1 - i) % 2 == 0 then 1 else 0;
      assert Counts(store[..], value, 1, i) by {
        assert Zeros(value, n, i + 1, i + 1) == 0;
      }
      forall p | 0 <= p < i
        ensures Counts(store[..], value, 1, p)
      {
        assert p % 1 == 0 && Counts(before, value, 1, p);
      }
      i := i + 1;
    }

    var step := 1;
    while step < n
      invariant 0 < step
      invariant CountsBlocks(store[..], value, step, 0, n)
      decreases n - step
    {
      i := 0;
      while i + step < n
        invariant 0 <= i && i % (2 * step) == 0
        invariant CountsBlocks(store[..], value, 2 * step, 0, i)
        invariant CountsBlocks(store[..], value, step, i, n)
        decreases n - i
      {
        ghost var before := store[..];
        BlockStarts(i, step);
        store[i] := if store[i] == step then store[i] + store[i + step] else store[i];
        CountsJoin(before, value, step, i, store[..]);
        i := i + step * 2;
      }
      CountsTail(store[..], value, step, i);
      step := step * 2;
    }
    assert 0 % step == 0 && Counts(store[..], value, step, 0);
    ZerosBoundValue(value, n, 0);
    zeroes := store[0];
  }
}
