/** refine_bins and create_bins: the partition of candidate-equal gates under simulated values. */
module Bins {
  import opened GateGraph

  type Bin = seq<GateId>
  type Interpretation = map<GateId, bool>

  ghost predicate Covers(m: Interpretation, bins: seq<Bin>) {
    forall i, k | 0 <= i < |bins| && 0 <= k < |bins[i]| :: bins[i][k] in m
  }

  ghost predicate NonEmpty(bins: seq<Bin>) { forall i | 0 <= i < |bins| :: bins[i] != [] }

  /** The gates with value b, in order. */
  ghost function Select(bin: Bin, m: Interpretation, b: bool): (s: Bin)
    requires forall g | g in bin :: g in m
    ensures forall g :: g in s <==> g in bin && m[g] == b
  {
    if bin == [] then []
    else
      var last := bin[|bin| - 1];
      Select(bin[..|bin| - 1], m, b) + if m[last] == b then [last] else []
  }

  /** The rest of a bin after refinement, and the bin split off. */
  ghost function Rest(bin: Bin, m: Interpretation): (s: Bin)
    requires bin != [] && forall g | g in bin :: g in m
  {
    Select(bin, m, m[bin[0]])
  }

  ghost function Moved(bin: Bin, m: Interpretation): (s: Bin)
    requires bin != [] && forall g | g in bin :: g in m
  {
    Select(bin, m, !m[bin[0]])
  }

  ghost function IfBig(bin: Bin): (bins: seq<Bin>) { if |bin| > 1 then [bin] else [] }

  ghost function KeptBins(bins: seq<Bin>, m: Interpretation): (s: seq<Bin>)
    requires NonEmpty(bins) && Covers(m, bins)
  {
    if bins == [] then []
    else KeptBins(bins[..|bins| - 1], m) + IfBig(Rest(bins[|bins| - 1], m))
  }

  ghost function MovedBins(bins: seq<Bin>, m: Interpretation): (s: seq<Bin>)
    requires NonEmpty(bins) && Covers(m, bins)
  {
    if bins == [] then []
    else MovedBins(bins[..|bins| - 1], m) + IfBig(Moved(bins[|bins| - 1], m))
  }

  ghost function Refined(bins: seq<Bin>, m: Interpretation): (s: seq<Bin>)
    requires NonEmpty(bins) && Covers(m, bins)
  {
    KeptBins(bins, m) + MovedBins(bins, m)
  }

  ghost function Splits(bins: seq<Bin>, m: Interpretation): (n: nat)
    requires NonEmpty(bins) && Covers(m, bins)
  {
    if bins == [] then 0
    else Splits(bins[..|bins| - 1], m) + if Moved(bins[|bins| - 1], m) != [] then 1 else 0
  }

  lemma SelectNone(m: Interpretation)
    ensures Select([], m, true) == [] && Select([], m, false) == []
  {
  }

  lemma SelectStep(bin: Bin, m: Interpretation, b: bool, k: nat)
    requires k < |bin| && forall g | g in bin :: g in m
    ensures Select(bin[..k + 1], m, b) == Select(bin[..k], m, b) + if m[bin[k]] == b then [bin[k]] else []
  {
    assert bin[..k + 1][..k] == bin[..k];
  }

  // ----- the code -----

  /** The inner loop of refine_bins. */
  method SplitBin(bin: Bin, m: Interpretation) returns (kept: Bin, newBin: Bin)
    requires bin != [] && forall g | g in bin :: g in m
    ensures kept == Rest(bin, m) && newBin == Moved(bin, m)
  {
    hide Select;
    var value := m[bin[0]];
    kept, newBin := [bin[0]], [];
    SelectNone(m);
    SelectStep(bin, m, value, 0);
    SelectStep(bin, m, !value, 0);
    assert bin[..0] == [];
    for k := 1 to |bin|
      invariant kept == Select(bin[..k], m, value) && newBin == Select(bin[..k], m, !value)
    {
      SelectStep(bin, m, value, k);
      SelectStep(bin, m, !value, k);
      if m[bin[k]] != value {
        newBin := newBin + [bin[k]];
      } else {
        kept := kept + [bin[k]];
      }
    }
    assert bin[..|bin|] == bin;
  }

  ghost function AllMoved(bins: seq<Bin>, m: Interpretation): (s: seq<Bin>)
    requires NonEmpty(bins) && Covers(m, bins)
    ensures NonEmpty(s)
  {
    if bins == [] then []
    else
      var moved := Moved(bins[|bins| - 1], m);
      AllMoved(bins[..|bins| - 1], m) + if moved != [] then [moved] else []
  }

  ghost function BigOnes(bins: seq<Bin>): (s: seq<Bin>) {
    if bins == [] then [] else BigOnes(bins[..|bins| - 1]) + IfBig(bins[|bins| - 1])
  }

  lemma BigOnesStep(bins: seq<Bin>, last: Bin)
    ensures BigOnes(bins + [last]) == BigOnes(bins) + IfBig(last)
  {
    assert (bins + [last])[..|bins|] == bins;
  }

  lemma {:induction false} BigMoved(bins: seq<Bin>, m: Interpretation)
    requires NonEmpty(bins) && Covers(m, bins)
    ensures BigOnes(AllMoved(bins, m)) == MovedBins(bins, m)
    ensures |AllMoved(bins, m)| == Splits(bins, m)
    decreases |bins|
  {
    hide Moved, BigOnes, IfBig;
    if bins != [] {
      var front, moved := bins[..|bins| - 1], Moved(bins[|bins| - 1], m);
      BigMoved(front, m);
      if moved != [] {
        BigOnesStep(AllMoved(front, m), moved);
      } else {
        NothingBig();
        assert AllMoved(bins, m) == AllMoved(front, m);
        assert MovedBins(bins, m) == MovedBins(front, m);
      }
    } else {
      NothingBig();
    }
  }

  lemma NothingBig()
    ensures BigOnes([]) == [] && IfBig([]) == []
  {
  }

  lemma RefineStep(bins: seq<Bin>, m: Interpretation, i: nat)
    requires NonEmpty(bins) && Covers(m, bins) && i < |bins|
    ensures KeptBins(bins[..i + 1], m) == KeptBins(bins[..i], m) + IfBig(Rest(bins[i], m))
    ensures var moved := Moved(bins[i], m);
            AllMoved(bins[..i + 1], m) == AllMoved(bins[..i], m) + if moved != [] then [moved] else []
  {
    hide Rest, Moved, IfBig;
    assert bins[..i + 1][..i] == bins[..i];
  }

  lemma RefineNone(m: Interpretation)
    ensures KeptBins([], m) == [] && AllMoved([], m) == []
  {
  }

  lemma {:induction false} KeptIsNotEmpty(bin: Bin, m: Interpretation)
    requires bin != [] && forall g | g in bin :: g in m
    ensures bin[0] in Rest(bin, m)
  {
  }

  /** refine_bins */
  method RefineBins(bins: seq<Bin>, m: Interpretation) returns (refined: seq<Bin>, split: bool)
    requires NonEmpty(bins) && Covers(m, bins)
    ensures refined == Refined(bins, m) && (split <==> Splits(bins, m) > 0)
  {
    hide Rest, Moved, KeptBins, AllMoved, BigOnes;
    refined := [];
    var tmpBins: seq<Bin> := [];
    RefineNone(m);
    NothingBig();
    assert bins[..0] == [];
    for i := 0 to |bins|
      invariant refined == KeptBins(bins[..i], m) && tmpBins == AllMoved(bins[..i], m)
    {
      RefineStep(bins, m, i);
      var bin, newBin := SplitBin(bins[i], m);
      if newBin != [] {
        tmpBins := tmpBins + [newBin];
      }
      if |bin| > 1 {
        refined := refined + [bin];
      }
    }
    assert bins[..|bins|] == bins;
    BigMoved(bins, m);
    split := tmpBins != [];
    if split {
      for j := 0 to |tmpBins|
        invariant refined == KeptBins(bins, m) + BigOnes(tmpBins[..j])
      {
        BigOnesStep(tmpBins[..j], tmpBins[j]);
        assert tmpBins[..j] + [tmpBins[j]] == tmpBins[..j + 1];
        if |tmpBins[j]| > 1 {
          refined := refined + [tmpBins[j]];
        }
      }
      assert tmpBins[..|tmpBins|] == tmpBins;
    }
  }

  // ----- what refinement does to the partition -----

  ghost predicate Together(bins: seq<Bin>, g: GateId, h: GateId) {
    exists i :: 0 <= i < |bins| && g in bins[i] && h in bins[i]
  }

  lemma TogetherCovered(bins: seq<Bin>, m: Interpretation, g: GateId, h: GateId)
    requires Covers(m, bins) && Together(bins, g, h)
    ensures g in m && h in m
  {
  }

  lemma TwoAreBig(bin: Bin, g: GateId, h: GateId)
    requires g in bin && h in bin && g != h
    ensures |bin| > 1 && IfBig(bin) == [bin]
  {
  }

  lemma TogetherAppend(a: seq<Bin>, b: seq<Bin>, g: GateId, h: GateId)
    ensures Together(a + b, g, h) <==> Together(a, g, h) || Together(b, g, h)
  {
    forall i | 0 <= i < |a| && g in a[i] && h in a[i]
      ensures Together(a + b, g, h)
    {
      assert (a + b)[i] == a[i];
    }
    forall i | 0 <= i < |b| && g in b[i] && h in b[i]
      ensures Together(a + b, g, h)
    {
      assert (a + b)[|a| + i] == b[i];
    }
  }

  lemma TogetherOne(bin: Bin, g: GateId, h: GateId)
    requires g != h
    ensures Together(IfBig(bin), g, h) <==> g in bin && h in bin
  {
    if g in bin && h in bin {
      TwoAreBig(bin, g, h);
      assert IfBig(bin)[0] == bin;
    }
  }

  lemma {:induction false} KeptTogether(bins: seq<Bin>, m: Interpretation, g: GateId, h: GateId)
    requires NonEmpty(bins) && Covers(m, bins) && g != h
    ensures Together(KeptBins(bins, m) + MovedBins(bins, m), g, h)
            <==> Together(bins, g, h) && m[g] == m[h]
    decreases |bins|
  {
    hide Together, IfBig, Select;
    TogetherAppend(KeptBins(bins, m), MovedBins(bins, m), g, h);
    if bins == [] {
      NothingTogether(g, h);
    } else {
      var front, last := bins[..|bins| - 1], bins[|bins| - 1];
      assert bins == front + [last];
      KeptTogether(front, m, g, h);
      TogetherAppend(KeptBins(front, m), MovedBins(front, m), g, h);
      TogetherAppend(KeptBins(front, m), IfBig(Rest(last, m)), g, h);
      TogetherAppend(MovedBins(front, m), IfBig(Moved(last, m)), g, h);
      TogetherAppend(front, [last], g, h);
      TogetherOne(Rest(last, m), g, h);
      TogetherOne(Moved(last, m), g, h);
      SingleTogether(last, g, h);
      if Together(front, g, h) {
        TogetherCovered(front, m, g, h);
      }
    }
  }

  lemma NothingTogether(g: GateId, h: GateId)
    ensures !Together([], g, h)
  {
  }

  lemma SingleTogether(bin: Bin, g: GateId, h: GateId)
    ensures Together([bin], g, h) <==> g in bin && h in bin
  {
    if g in bin && h in bin {
      assert [bin][0] == bin;
    }
  }

  /** Two gates stay together exactly if they were together and have the same value. */
  lemma RefinedTogether(bins: seq<Bin>, m: Interpretation, g: GateId, h: GateId)
    requires NonEmpty(bins) && Covers(m, bins) && g != h
    ensures Together(Refined(bins, m), g, h) <==> Together(bins, g, h) && m[g] == m[h]
  {
    KeptTogether(bins, m, g, h);
  }

  // ----- sizes -----

  /** What is left to split. */
  ghost function Weight(bins: seq<Bin>): (n: int) {
    if bins == [] then 0 else Weight(bins[..|bins| - 1]) + |bins[|bins| - 1]| - 1
  }

  lemma {:induction false} WeightAppend(a: seq<Bin>, b: seq<Bin>)
    ensures Weight(a + b) == Weight(a) + Weight(b)
    decreases |b|
  {
    if b == [] {
      assert a + b == a;
    } else {
      assert (a + b)[..|a + b| - 1] == a + b[..|b| - 1];
      WeightAppend(a, b[..|b| - 1]);
    }
  }

  lemma {:induction false} WeightIsNatural(bins: seq<Bin>)
    requires NonEmpty(bins)
    ensures 0 <= Weight(bins)
    decreases |bins|
  {
    if bins != [] {
      WeightIsNatural(bins[..|bins| - 1]);
    }
  }

  lemma {:induction false} SelectSizes(bin: Bin, m: Interpretation, b: bool)
    requires forall g | g in bin :: g in m
    ensures |Select(bin, m, b)| + |Select(bin, m, !b)| == |bin|
    decreases |bin|
  {
    if bin != [] {
      SelectSizes(bin[..|bin| - 1], m, b);
    }
  }

  lemma BinWeight(bin: Bin, m: Interpretation)
    requires bin != [] && forall g | g in bin :: g in m
    ensures Weight(IfBig(Rest(bin, m))) + Weight(IfBig(Moved(bin, m)))
            == |bin| - 1 - if Moved(bin, m) != [] then 1 else 0
  {
    SelectSizes(bin, m, m[bin[0]]);
    KeptIsNotEmpty(bin, m);
    WeightOne(Rest(bin, m));
    WeightOne(Moved(bin, m));
  }

  lemma WeightOne(bin: Bin)
    ensures Weight(IfBig(bin)) == if bin == [] then 0 else |bin| - 1
  {
  }

  /** Refinement takes one from the weight for each bin that it splits. */
  lemma {:induction false} RefinedWeight(bins: seq<Bin>, m: Interpretation)
    requires NonEmpty(bins) && Covers(m, bins)
    ensures Weight(Refined(bins, m)) == Weight(bins) - Splits(bins, m)
    decreases |bins|
  {
    hide Rest, Moved, IfBig;
    if bins == [] {
      WeightAppend([], []);
    } else {
      var front, last := bins[..|bins| - 1], bins[|bins| - 1];
      RefinedWeight(front, m);
      WeightAppend(KeptBins(bins, m), MovedBins(bins, m));
      WeightAppend(KeptBins(front, m), MovedBins(front, m));
      WeightAppend(KeptBins(front, m), IfBig(Rest(last, m)));
      WeightAppend(MovedBins(front, m), IfBig(Moved(last, m)));
      BinWeight(last, m);
    }
  }

  // ----- order -----

  /** The bin keeps the order of the gates given by pos. */
  ghost predicate Ordered(bin: Bin, pos: GateId -> int) {
    forall i, j | 0 <= i < j < |bin| :: pos(bin[i]) < pos(bin[j])
  }

  /** Bins have at least two gates, all from the given ones, in order. */
  ghost predicate BinsOk(bins: seq<Bin>, all: set<GateId>, pos: GateId -> int) {
    forall i | 0 <= i < |bins| :: BinOk(bins[i], all, pos)
  }

  ghost predicate BinOk(bin: Bin, all: set<GateId>, pos: GateId -> int) {
    |bin| > 1 && (forall g | g in bin :: g in all) && Ordered(bin, pos)
  }

  lemma {:induction false} SelectOrdered(bin: Bin, m: Interpretation, b: bool, pos: GateId -> int)
    requires (forall g | g in bin :: g in m) && Ordered(bin, pos)
    ensures Ordered(Select(bin, m, b), pos)
    decreases |bin|
  {
    if bin != [] {
      SelectOrdered(bin[..|bin| - 1], m, b, pos);
      forall g | g in Select(bin[..|bin| - 1], m, b)
        ensures pos(g) < pos(bin[|bin| - 1])
      {
        var i :| 0 <= i < |bin| - 1 && bin[i] == g;
      }
    }
  }

  lemma IfBigOk(bin: Bin, all: set<GateId>, pos: GateId -> int)
    requires (forall g | g in bin :: g in all) && Ordered(bin, pos)
    ensures BinsOk(IfBig(bin), all, pos)
  {
  }

  lemma {:induction false} RefinedOk(bins: seq<Bin>, m: Interpretation, all: set<GateId>, pos: GateId -> int)
    requires NonEmpty(bins) && Covers(m, bins)
    requires forall i | 0 <= i < |bins| :: (forall g | g in bins[i] :: g in all) && Ordered(bins[i], pos)
    ensures BinsOk(Refined(bins, m), all, pos)
    decreases |bins|
  {
    hide Ordered, IfBig, BinOk, Select;
    if bins != [] {
      var front, last := bins[..|bins| - 1], bins[|bins| - 1];
      RefinedOk(front, m, all, pos);
      SelectOrdered(last, m, m[last[0]], pos);
      SelectOrdered(last, m, !m[last[0]], pos);
      IfBigOk(Rest(last, m), all, pos);
      IfBigOk(Moved(last, m), all, pos);
      BinsOkParts(KeptBins(front, m), MovedBins(front, m), all, pos);
      BinsOkParts(KeptBins(front, m), IfBig(Rest(last, m)), all, pos);
      BinsOkParts(MovedBins(front, m), IfBig(Moved(last, m)), all, pos);
      BinsOkParts(KeptBins(bins, m), MovedBins(bins, m), all, pos);
    }
  }

  lemma BinsOkParts(a: seq<Bin>, b: seq<Bin>, all: set<GateId>, pos: GateId -> int)
    ensures BinsOk(a + b, all, pos) <==> BinsOk(a, all, pos) && BinsOk(b, all, pos)
  {
    hide BinOk;
    var c := a + b;
    assert forall i | 0 <= i < |a| :: c[i] == a[i];
    assert forall i | 0 <= i < |b| :: c[|a| + i] == b[i];
  }

  // ----- nothing to split -----

  lemma {:induction false} SelectAll(bin: Bin, m: Interpretation, b: bool, k: nat)
    requires k <= |bin| && (forall g | g in bin :: g in m) && forall g | g in bin :: m[g] == b
    ensures (forall g | g in bin[..k] :: g in m) && Select(bin[..k], m, b) == bin[..k]
    decreases k
  {
    SelectNone(m);
    hide Select;
    if k > 0 {
      SelectAll(bin, m, b, k - 1);
      SelectStep(bin, m, b, k - 1);
      assert bin[k - 1] in bin;
      assert bin[..k] == bin[..k - 1] + [bin[k - 1]];
    }
  }

  lemma UnsplitRest(bin: Bin, m: Interpretation)
    requires bin != [] && (forall g | g in bin :: g in m) && Moved(bin, m) == []
    ensures Rest(bin, m) == bin
  {
    forall g | g in bin
      ensures m[g] == m[bin[0]]
    {
      assert g !in Moved(bin, m);
    }
    SelectAll(bin, m, m[bin[0]], |bin|);
    assert bin[..|bin|] == bin;
  }

  lemma LastBin(bins: seq<Bin>, m: Interpretation)
    requires NonEmpty(bins) && Covers(m, bins) && bins != []
    ensures var front, last := bins[..|bins| - 1], bins[|bins| - 1];
            && NonEmpty(front) && Covers(m, front) && last != [] && (forall g | g in last :: g in m)
            && KeptBins(bins, m) == KeptBins(front, m) + IfBig(Rest(last, m))
            && MovedBins(bins, m) == MovedBins(front, m) + IfBig(Moved(last, m))
            && Splits(bins, m) == Splits(front, m) + if Moved(last, m) != [] then 1 else 0
  {
    hide Select, Moved, Rest, IfBig;
  }

  lemma OneUnsplit(front: seq<Bin>, last: Bin, kept: seq<Bin>, moved: seq<Bin>, m: Interpretation)
    requires last != [] && (forall g | g in last :: g in m) && Moved(last, m) == [] && |last| > 1
    requires kept == front + IfBig(Rest(last, m)) && moved == IfBig(Moved(last, m))
    ensures kept == front + [last] && moved == []
  {
    UnsplitRest(last, m);
    hide Moved, Rest;
  }

  /** If no bin is split, all stay as they are. */
  lemma {:induction false} NoSplitKeeps(bins: seq<Bin>, m: Interpretation)
    requires NonEmpty(bins) && Covers(m, bins) && Splits(bins, m) == 0 && forall bin | bin in bins :: |bin| > 1
    ensures KeptBins(bins, m) == bins && MovedBins(bins, m) == []
    decreases |bins|
  {
    if bins != [] {
      var front, last := bins[..|bins| - 1], bins[|bins| - 1];
      LastBin(bins, m);
      assert |last| > 1;
      hide Select, Splits, KeptBins, MovedBins, Moved, Rest, NonEmpty, Covers, IfBig;
      NoSplitKeeps(front, m);
      OneUnsplit(front, last, KeptBins(bins, m), MovedBins(bins, m), m);
      Rejoined(bins);
    }
  }

  lemma Rejoined(bins: seq<Bin>)
    requires bins != []
    ensures bins == bins[..|bins| - 1] + [bins[|bins| - 1]]
  {
  }

  /** The gates of each bin have the same value. */
  ghost predicate SplitsNothing(bins: seq<Bin>, m: Interpretation) {
    forall g, h | g != h && Together(bins, g, h) :: g in m && h in m && m[g] == m[h]
  }

  lemma UnsplitIsSame(bins: seq<Bin>, m: Interpretation)
    requires NonEmpty(bins) && Covers(m, bins) && Refined(bins, m) == bins
    ensures SplitsNothing(bins, m)
  {
    hide Refined, Together;
    forall g, h | g != h && Together(bins, g, h)
      ensures g in m && h in m && m[g] == m[h]
    {
      TogetherCovered(bins, m, g, h);
      RefinedTogether(bins, m, g, h);
    }
  }

  // ----- no gate is in two bins -----

  /** How many bins the gate is in. */
  ghost function Uses(bins: seq<Bin>, g: GateId): (n: nat) {
    if bins == [] then 0 else Uses(bins[..|bins| - 1], g) + if g in bins[|bins| - 1] then 1 else 0
  }

  lemma {:induction false} UsesAppend(a: seq<Bin>, b: seq<Bin>, g: GateId)
    ensures Uses(a + b, g) == Uses(a, g) + Uses(b, g)
    decreases |b|
  {
    if b == [] {
      assert a + b == a;
    } else {
      assert (a + b)[..|a + b| - 1] == a + b[..|b| - 1];
      UsesAppend(a, b[..|b| - 1], g);
    }
  }

  /** A gate stays in one of the two parts of its bin. */
  lemma {:induction false} RefinedUses(bins: seq<Bin>, m: Interpretation, g: GateId)
    requires NonEmpty(bins) && Covers(m, bins)
    ensures Uses(Refined(bins, m), g) <= Uses(bins, g)
    decreases |bins|
  {
    UsesAppend(KeptBins(bins, m), MovedBins(bins, m), g);
    if bins != [] {
      var front, last := bins[..|bins| - 1], bins[|bins| - 1];
      RefinedUses(front, m, g);
      UsesAppend(KeptBins(front, m), MovedBins(front, m), g);
      UsesAppend(KeptBins(front, m), IfBig(Rest(last, m)), g);
      UsesAppend(MovedBins(front, m), IfBig(Moved(last, m)), g);
      BigUses(Rest(last, m), g);
      BigUses(Moved(last, m), g);
    }
  }

  lemma BigUses(bin: Bin, g: GateId)
    ensures Uses(IfBig(bin), g) <= if g in bin then 1 else 0
  {
    assert [bin][..0] == [];
  }

  lemma {:induction false} UsedOnce(bins: seq<Bin>, g: GateId, i: nat)
    requires i < |bins| && g in bins[i]
    ensures 1 <= Uses(bins, g)
    decreases |bins|
  {
    if i < |bins| - 1 {
      UsedOnce(bins[..|bins| - 1], g, i);
    }
  }

  lemma {:induction false} UsedTwice(bins: seq<Bin>, g: GateId, i: nat, j: nat)
    requires i < j < |bins| && g in bins[i] && g in bins[j]
    ensures 2 <= Uses(bins, g)
    decreases |bins|
  {
    if j < |bins| - 1 {
      UsedTwice(bins[..|bins| - 1], g, i, j);
    } else {
      UsedOnce(bins[..|bins| - 1], g, i);
    }
  }

  // ----- several interpretations -----

  ghost predicate AllCover(ms: seq<Interpretation>, all: set<GateId>) {
    forall i | 0 <= i < |ms| :: all <= ms[i].Keys
  }

  ghost predicate AgreeOnAll(ms: seq<Interpretation>, g: GateId, h: GateId)
    requires AllCover(ms, {g, h})
  {
    forall i | 0 <= i < |ms| :: ms[i][g] == ms[i][h]
  }

  /** The bins are what the interpretations leave of the first bin. */
  ghost predicate IsPartition(bins: seq<Bin>, first: Bin, ms: seq<Interpretation>, pos: GateId -> int) {
    var all := set g | g in first;
    && AllCover(ms, all) && NonEmpty(bins) && (forall g :: Uses(bins, g) <= 1)
    && (if ms == [] then bins == [first] && Ordered(first, pos) else BinsOk(bins, all, pos))
    && forall g, h | g in all && h in all && g != h :: Together(bins, g, h) <==> AgreeOnAll(ms, g, h)
  }

  lemma FirstPartition(first: Bin, pos: GateId -> int)
    requires first != [] && Ordered(first, pos)
    ensures IsPartition([first], first, [], pos)
  {
    forall g
      ensures Uses([first], g) <= 1
    {
      assert [first][..0] == [];
    }
    forall g, h | g in first && h in first
      ensures Together([first], g, h)
    {
      SingleTogether(first, g, h);
    }
  }

  lemma PartitionCovered(bins: seq<Bin>, first: Bin, ms: seq<Interpretation>, m: Interpretation, pos: GateId -> int)
    requires IsPartition(bins, first, ms, pos) && forall g | g in first :: g in m
    ensures NonEmpty(bins) && Covers(m, bins)
    ensures forall i | 0 <= i < |bins| :: (forall g | g in bins[i] :: g in first) && Ordered(bins[i], pos)
  {
    hide Together, Ordered, AgreeOnAll;
    if ms != [] {
      forall i | 0 <= i < |bins|
        ensures (forall g | g in bins[i] :: g in first) && Ordered(bins[i], pos)
      {
        assert BinOk(bins[i], (set g | g in first), pos);
      }
    }
  }

  /** One more interpretation. */
  lemma PartitionStep(bins: seq<Bin>, first: Bin, ms: seq<Interpretation>, m: Interpretation, pos: GateId -> int)
    requires IsPartition(bins, first, ms, pos) && forall g | g in first :: g in m
    ensures NonEmpty(bins) && Covers(m, bins) && IsPartition(Refined(bins, m), first, ms + [m], pos)
  {
    hide Together, Ordered, BinsOk, Covers, NonEmpty, Refined;
    var all := set g | g in first;
    PartitionCovered(bins, first, ms, m, pos);
    RefinedOk(bins, m, all, pos);
    OkIsNotEmpty(Refined(bins, m), all, pos);
    forall g
      ensures Uses(Refined(bins, m), g) <= 1
    {
      RefinedUses(bins, m, g);
    }
    forall g, h | g in all && h in all && g != h
      ensures Together(Refined(bins, m), g, h) <==> AgreeOnAll(ms + [m], g, h)
    {
      RefinedTogether(bins, m, g, h);
      AgreeStep(ms, m, g, h);
    }
  }

  /** No gate is in two bins. */
  lemma BinsAreDisjoint(bins: seq<Bin>, first: Bin, ms: seq<Interpretation>, pos: GateId -> int, i: nat, j: nat, g: GateId)
    requires IsPartition(bins, first, ms, pos) && i < |bins| && j < |bins| && i != j && g in bins[i]
    ensures g !in bins[j]
  {
    hide AllCover, NonEmpty, BinsOk, Ordered, Together;
    if g in bins[j] {
      UsedTwice(bins, g, if i < j then i else j, if i < j then j else i);
    }
  }

  lemma OkIsNotEmpty(bins: seq<Bin>, all: set<GateId>, pos: GateId -> int)
    requires BinsOk(bins, all, pos)
    ensures NonEmpty(bins)
  {
    forall i | 0 <= i < |bins|
      ensures bins[i] != []
    {
      assert BinOk(bins[i], all, pos);
    }
  }

  lemma AgreeStep(ms: seq<Interpretation>, m: Interpretation, g: GateId, h: GateId)
    requires AllCover(ms, {g, h}) && g in m && h in m
    ensures AllCover(ms + [m], {g, h})
    ensures AgreeOnAll(ms + [m], g, h) <==> AgreeOnAll(ms, g, h) && m[g] == m[h]
  {
    var all := ms + [m];
    assert all[|ms|] == m;
    assert forall i | 0 <= i < |ms| :: all[i] == ms[i];
  }
}
