/** create_bins and determine_structural_redundancy: which gates may be equal. */
module Candidates {
  import opened GateGraph
  import opened BooleanCircuit
  import opened LevelSearch
  import opened Bins
  import opened Simulation
  import opened SweepLevels

  function FirstBin(l: Lists): (bin: Bin) { [l.one, l.zero] + l.listed }

  ghost function IndexOf(s: seq<GateId>, g: GateId): (i: int) {
    if s == [] then 0
    else if s[0] == g then 0
    else 1 + IndexOf(s[1..], g)
  }

  lemma {:induction false} IndexAt(s: seq<GateId>, i: nat)
    requires NoDuplicates(s) && i < |s|
    ensures IndexOf(s, s[i]) == i
    decreases i
  {
    if i > 0 {
      IndexAt(s[1..], i - 1);
    }
  }

  ghost function Position(l: Lists): (pos: GateId -> int) { (g: GateId) => IndexOf(FirstBin(l), g) }

  lemma FirstBinOrdered(gates: Gates, l: Lists)
    requires ListsOk(gates, l)
    ensures NoDuplicates(FirstBin(l)) && Ordered(FirstBin(l), Position(l))
    ensures Position(l)(l.one) == 0 && Position(l)(l.zero) == 1
  {
    hide IsBoolean;
    var first := FirstBin(l);
    assert forall g | g in l.listed :: g != l.one && g != l.zero;
    assert NoDuplicates(first);
    IndexAt(first, 0);
    IndexAt(first, 1);
    forall i, j | 0 <= i < j < |first|
      ensures Position(l)(first[i]) < Position(l)(first[j])
    {
      IndexAt(first, i);
      IndexAt(first, j);
    }
  }

  lemma RankedHasNoCycle(gates: Gates, rank: GateId -> nat, g: GateId)
    requires Ranked(gates, rank)
    ensures !CycleReachable(gates, g)
  {
    if CycleReachable(gates, g) {
      var p :| StartsAt(gates, p, g) && Repeats(p);
      var i, j :| 0 <= i < j < |p| && p[i] == p[j];
      var q := GoRound(gates, p, i, j, rank(g) + 2);
      RankBoundsPaths(gates, rank, q);
    }
  }

  lemma SearchIsDone(gates: Gates, l: Lists, levels: LevelMap, withSet: bool, sets: LevelSet)
    requires EntriesOk(gates, levels) && StackOk(gates, levels, []) && VisitedOk(gates, levels, set g | g in l.listed)
    requires (forall g | g in l.listed :: Finished(levels, g)) && (withSet ==> SetOk(gates, levels, sets))
    ensures Searched(gates, l, levels) && (withSet ==> LevelsOk(gates, levels, sets))
  {
  }

  /** The loop over the gates that computes levels, until the time is over. */
  method ComputeLevels(gates: Gates, l: Lists, withSet: bool, clock: Clock)
    returns (ok: bool, levels: LevelMap, sets: LevelSet)
    requires ListsOk(gates, l)
    modifies clock
    ensures old(clock.stopped) ==> clock.stopped
    ensures !clock.checkTimeout ==> clock.stopped == old(clock.stopped)
    ensures !ok ==> exists g :: g in l.listed && CycleReachable(gates, g)
    ensures ok && !clock.stopped ==> Searched(gates, l, levels) && (withSet ==> LevelsOk(gates, levels, sets))
  {
    hide EntriesOk, StackOk, SetOk, VisitedOk, IsDepth, CycleReachable, IsBoolean, Searched, LevelsOk, Kept;
    levels, sets := map[], map[];
    BooleanHasFanins(gates);
    hide HasFanins;
    var search := new LevelComputation(gates, withSet, set g | g in l.listed);
    for i := 0 to |l.listed|
      invariant !clock.checkTimeout ==> clock.stopped == old(clock.stopped)
      invariant search.Valid([]) && search.gates == gates && search.withSet == withSet
      invariant old(clock.stopped) ==> clock.stopped
      invariant search.asked == set g | g in l.listed
      invariant forall g | g in l.listed[..i] :: Finished(search.levelMap, g)
      invariant fresh(search)
    {
      var over := clock.Timeout();
      if over { return true, levels, sets; }
      ghost var before := search.levelMap;
      assert l.listed[i] in l.listed;
      var r := search.LevelOf(l.listed[i]);
      if r.Cycle? {
        return false, levels, sets;
      }
      KeepsFinished(before, search.levelMap, l.listed[..i]);
    }
    assert l.listed[..|l.listed|] == l.listed;
    SearchIsDone(gates, l, search.levelMap, withSet, search.levelSet);
    return true, search.levelMap, search.levelSet;
  }

  lemma KeepsFinished(m: LevelMap, m': LevelMap, gs: seq<GateId>)
    requires Kept(m, m') && forall g | g in gs :: Finished(m, g)
    ensures forall g | g in gs :: Finished(m', g)
  {
  }

  // ----- simulated values -----

  /** Each simulation has the values of all candidate gates under its inputs. */
  ghost predicate SimsOk(gates: Gates, l: Lists, rank: GateId -> nat, starts: seq<Interpretation>, sims: seq<Interpretation>) {
    && IsBoolean(gates) && Ranked(gates, rank) && |starts| == |sims|
    && forall i | 0 <= i < |sims| :: SimOk(gates, l, rank, starts[i], sims[i])
  }

  ghost predicate SimOk(gates: Gates, l: Lists, rank: GateId -> nat, start: Interpretation, sim: Interpretation)
    requires IsBoolean(gates) && Ranked(gates, rank)
  {
    && IsStart(gates, l, start) && AgreesWith(Meaning(gates, rank, start), sim)
    && forall g | g in FirstBin(l) :: g in sim
  }

  lemma SimsStep(gates: Gates, l: Lists, rank: GateId -> nat, starts: seq<Interpretation>, sims: seq<Interpretation>,
                 start: Interpretation, sim: Interpretation)
    requires SimsOk(gates, l, rank, starts, sims) && SimOk(gates, l, rank, start, sim)
    ensures SimsOk(gates, l, rank, starts + [start], sims + [sim])
  {
    hide IsBoolean, Ranked, SimOk;
    forall i | 0 <= i < |sims| + 1
      ensures SimOk(gates, l, rank, (starts + [start])[i], (sims + [sim])[i])
    {
      assert i < |sims| ==> SimOk(gates, l, rank, starts[i], sims[i]);
    }
  }

  /** simulate and simulate_2 on the values of the inputs */
  method SimulateFrom(gates: Gates, l: Lists, ghost rank: GateId -> nat, ghost levels: LevelMap, sets: LevelSet,
                      start: Interpretation, clock: Clock)
    returns (sim: Interpretation)
    requires ListsOk(gates, l) && Ranked(gates, rank) && Searched(gates, l, levels) && LevelsOk(gates, levels, sets)
    requires IsStart(gates, l, start)
    modifies clock
    ensures old(clock.stopped) ==> clock.stopped
    ensures !clock.checkTimeout ==> clock.stopped == old(clock.stopped)
    ensures clock.stopped || SimOk(gates, l, rank, start, sim)
  {
    hide Searched, LevelsOk, ListsOk, IsBoolean, Ranked, Consistent, Meaning;
    ListsAreBoolean(gates, l);
    StartAgrees(gates, l, rank, start);
    NoOutputVisited(gates, l, levels);
    sim := Simulate(gates, l, levels, sets, start, clock, Meaning(gates, rank, start));
  }

  lemma NoOutputVisited(gates: Gates, l: Lists, levels: LevelMap)
    requires ListsOk(gates, l) && Searched(gates, l, levels)
    ensures forall g | g in levels :: g in gates && gates[g].op != OUTPUT
    ensures forall g | g in l.listed :: Finished(levels, g)
  {
    forall g | g in levels
      ensures g in gates && gates[g].op != OUTPUT
    {
      SearchedGate(gates, l, levels, g);
    }
  }

  /** The candidates after simulating the given interpretations. */
  ghost predicate CandidatesOk(gates: Gates, l: Lists, rank: GateId -> nat, bins: seq<Bin>,
                               starts: seq<Interpretation>, sims: seq<Interpretation>)
  {
    SimsOk(gates, l, rank, starts, sims) && IsPartition(bins, FirstBin(l), sims, Position(l))
  }

  /** One refinement with a simulated interpretation. */
  method RefineWith(gates: Gates, l: Lists, ghost rank: GateId -> nat, bins: seq<Bin>, start: Interpretation,
                    sim: Interpretation, ghost starts: seq<Interpretation>, ghost sims: seq<Interpretation>)
    returns (refined: seq<Bin>, split: bool)
    requires CandidatesOk(gates, l, rank, bins, starts, sims) && SimOk(gates, l, rank, start, sim)
    ensures CandidatesOk(gates, l, rank, refined, starts + [start], sims + [sim])
    ensures Weight(refined) <= Weight(bins) - if split then 1 else 0
    ensures 0 <= Weight(refined)
    ensures !split ==> refined == bins && SplitsNothing(bins, sim)
    ensures split <==> exists g, h :: g != h && Together(bins, g, h) && g in sim && h in sim && sim[g] != sim[h]
  {
    hide IsPartition, Together, SplitsNothing, Refined, Splits, Weight, Covers, NonEmpty, IsBoolean, Ranked;
    assert forall g | g in FirstBin(l) :: g in sim by { SimCovers(gates, l, rank, start, sim); }
    hide SimOk;
    PartitionCovered(bins, FirstBin(l), sims, sim, Position(l));
    PartitionStep(bins, FirstBin(l), sims, sim, Position(l));
    SimsStep(gates, l, rank, starts, sims, start, sim);
    RefinedWeight(bins, sim);
    BinsAreBig(bins, l, sims);
    refined, split := RefineBins(bins, sim);
    if !split {
      NoSplitKeeps(bins, sim);
      RefinedParts(bins, sim);
      UnsplitIsSame(bins, sim);
    }
    SplitMeansDifferent(bins, sim, split);
    PartitionIsNotEmpty(refined, FirstBin(l), sims + [sim], Position(l));
    WeightIsNatural(refined);
  }

  lemma RefinedParts(bins: seq<Bin>, m: Interpretation)
    requires NonEmpty(bins) && Covers(m, bins)
    ensures Refined(bins, m) == KeptBins(bins, m) + MovedBins(bins, m)
  {
  }

  lemma BinsAreBig(bins: seq<Bin>, l: Lists, sims: seq<Interpretation>)
    requires IsPartition(bins, FirstBin(l), sims, Position(l))
    ensures forall bin | bin in bins :: |bin| > 1
  {
    hide Together, Ordered;
    if sims != [] {
      forall i | 0 <= i < |bins|
        ensures |bins[i]| > 1
      {
        assert BinOk(bins[i], (set g | g in FirstBin(l)), Position(l));
      }
    }
  }

  /** A bin is split exactly if two of its gates differ. */
  lemma SplitMeansDifferent(bins: seq<Bin>, sim: Interpretation, split: bool)
    requires NonEmpty(bins) && Covers(sim, bins) && (split <==> Splits(bins, sim) > 0)
    requires !split ==> SplitsNothing(bins, sim)
    ensures split <==> exists g, h :: g != h && Together(bins, g, h) && g in sim && h in sim && sim[g] != sim[h]
  {
    hide Select;
    if split {
      var i := SplitBinExists(bins, sim);
      var bin := bins[i];
      var g := Moved(bin, sim)[0];
      assert g in Moved(bin, sim);
      assert bin[0] in bin && Together(bins, bin[0], g);
    }
  }

  lemma {:induction false} SplitBinExists(bins: seq<Bin>, sim: Interpretation) returns (i: nat)
    requires NonEmpty(bins) && Covers(sim, bins) && Splits(bins, sim) > 0
    ensures i < |bins| && Moved(bins[i], sim) != []
    decreases |bins|
  {
    hide Select;
    i := |bins| - 1;
    if Moved(bins[i], sim) == [] {
      i := SplitBinExists(bins[..|bins| - 1], sim);
    }
  }

  lemma SimCovers(gates: Gates, l: Lists, rank: GateId -> nat, start: Interpretation, sim: Interpretation)
    requires IsBoolean(gates) && Ranked(gates, rank) && SimOk(gates, l, rank, start, sim)
    ensures forall g | g in FirstBin(l) :: g in sim
  {
  }

  lemma PartitionIsNotEmpty(bins: seq<Bin>, first: Bin, ms: seq<Interpretation>, pos: GateId -> int)
    requires IsPartition(bins, first, ms, pos)
    ensures NonEmpty(bins)
  {
  }

  method CreateBins(gates: Gates, l: Lists, ghost rank: GateId -> nat, interpretations: seq<Interpretation>, clock: Clock)
    returns (bins: seq<Bin>, ghost sims: seq<Interpretation>)
    requires ListsOk(gates, l) && Ranked(gates, rank) && forall m | m in interpretations :: IsStart(gates, l, m)
    modifies clock
    ensures old(clock.stopped) ==> clock.stopped
    ensures clock.stopped || CandidatesOk(gates, l, rank, bins, interpretations, sims)
  {
    hide IsPartition, SimsOk, SimOk, Searched, LevelsOk, IsBoolean, Ranked, CycleReachable, IsStart, Ordered;
    var initialBin := [l.one, l.zero];
    bins, sims := [], [];
    for i := 0 to |l.listed|
      invariant initialBin == [l.one, l.zero] + l.listed[..i] && (old(clock.stopped) ==> clock.stopped)
    {
      var over := clock.Timeout();
      if over { return; }
      initialBin := initialBin + [l.listed[i]];
    }
    assert initialBin == FirstBin(l);
    bins := [initialBin];
    NoSims(gates, l, rank);
    for i := 0 to |interpretations|
      invariant CandidatesOk(gates, l, rank, bins, interpretations[..i], sims) && (old(clock.stopped) ==> clock.stopped)
    {
      var over := clock.Timeout();
      if over { return; }
      var untimed := new Clock(false);
      var ok, levels, sets := ComputeLevels(gates, l, true, untimed);
      forall g | g in l.listed ensures !CycleReachable(gates, g) { RankedHasNoCycle(gates, rank, g); }
      assert interpretations[i] in interpretations;
      var sim := SimulateFrom(gates, l, rank, levels, sets, interpretations[i], untimed);
      assert interpretations[..i] + [interpretations[i]] == interpretations[..i + 1];
      var split;
      bins, split := RefineWith(gates, l, rank, bins, interpretations[i], sim, interpretations[..i], sims);
      sims := sims + [sim];
    }
    assert interpretations[..|interpretations|] == interpretations;
  }

  lemma NoSims(gates: Gates, l: Lists, rank: GateId -> nat)
    requires ListsOk(gates, l) && Ranked(gates, rank)
    ensures CandidatesOk(gates, l, rank, [FirstBin(l)], [], [])
  {
    hide IsPartition, IsBoolean;
    FirstBinOrdered(gates, l);
    FirstPartition(FirstBin(l), Position(l));
  }

  method RandomStart(gates: Gates, l: Lists) returns (m: Interpretation)
    requires ListsOk(gates, l)
    ensures IsStart(gates, l, m)
  {
    hide IsBoolean;
    m := map[l.one := true, l.zero := false];
    for i := 0 to |l.inputs|
      invariant l.one in m && l.zero in m && m[l.one] && !m[l.zero] && forall g | g in l.inputs[..i] :: g in m
      invariant forall g | g in m :: g in l.inputs || g == l.one || g == l.zero
    {
      var value := *;
      assert l.inputs[i] in l.inputs;
      m := m[l.inputs[i] := value];
    }
    assert l.inputs[..|l.inputs|] == l.inputs;
  }

  /**
   Ends although each round draws new random inputs: a round that splits a bin lowers the weight, and
   ten rounds in a row that do not split end the loop. So it stores no more interpretations than
   there was weight. The stored inputs alone account for the bins, and idle are the simulations of
   the last ten rounds, which split nothing.
   */
  method DetermineStructuralRedundancy(gates: Gates, l: Lists, ghost rank: GateId -> nat, bins: seq<Bin>,
                                       interpretations: seq<Interpretation>, clock: Clock,
                                       ghost starts: seq<Interpretation>, ghost sims: seq<Interpretation>)
    returns (refined: seq<Bin>, stored: seq<Interpretation>, ghost sims': seq<Interpretation>,
             ghost idle: seq<Interpretation>)
    requires ListsOk(gates, l) && Ranked(gates, rank) && CandidatesOk(gates, l, rank, bins, starts, sims)
    requires forall m | m in interpretations :: IsStart(gates, l, m)
    modifies clock
    ensures interpretations <= stored && forall m | m in stored :: IsStart(gates, l, m)
    ensures CandidatesOk(gates, l, rank, refined, starts + stored[|interpretations|..], sims') && sims <= sims'
    ensures |stored| - |interpretations| <= Weight(bins) - Weight(refined) <= Weight(bins)
    ensures clock.stopped || (|idle| == 10 && forall m | m in idle :: IsIdle(gates, l, rank, refined, m))
    ensures old(clock.stopped) ==> clock.stopped
  {
    hide ListsOk, SimOk, Searched, LevelsOk, IsBoolean, Ranked, CycleReachable, IsStart, CandidatesOk, Weight, SplitsNothing, Together;
    refined, stored, sims', idle := bins, interpretations, sims, [];
    assert starts + stored[|interpretations|..] == starts;
    ListsAreBoolean(gates, l);
    CandidatesWeight(gates, l, rank, bins, starts, sims);
    var ok, levels, sets := ComputeLevels(gates, l, true, clock);
    forall g | g in l.listed ensures !CycleReachable(gates, g) { RankedHasNoCycle(gates, rank, g); }
    var over := clock.Timeout();
    if over { return; }
    var threshold := 0;
    var again := true;
    while again
      invariant 0 <= threshold && (again ==> threshold < 10)
      invariant interpretations <= stored && forall m | m in stored :: IsStart(gates, l, m)
      invariant CandidatesOk(gates, l, rank, refined, starts + stored[|interpretations|..], sims') && sims <= sims'
      invariant |stored| - |interpretations| <= Weight(bins) - Weight(refined) && 0 <= Weight(refined)
      invariant clock.stopped || !old(clock.stopped)
      invariant clock.stopped || (|idle| == threshold <= 10 && (again <==> threshold < 10))
      invariant forall m | m in idle :: IsIdle(gates, l, rank, refined, m)
      decreases Weight(refined), 10 - threshold, again
    {
      ghost var starts' := starts + stored[|interpretations|..];
      var start := RandomStart(gates, l);
      var sim := SimulateFrom(gates, l, rank, levels, sets, start, clock);
      over := clock.Timeout();
      var split := false;
      if !over {
        ghost var unsplit := sims';
        refined, split := RefineWith(gates, l, rank, refined, start, sim, starts', sims');
        if split {
          sims', idle := sims' + [sim], [];
        } else {
          assert IsIdle(gates, l, rank, refined, sim) by { IdleRound(gates, l, rank, refined, start, sim); }
          idle := idle + [sim];
        }
      }
      if split {
        stored := stored + [start];
        assert starts + stored[|interpretations|..] == starts' + [start];
        threshold := 0;
      } else {
        threshold := threshold + 1;
      }
      over := clock.Timeout();
      again := threshold < 10 && !over;
    }
  }

  /** The values under some inputs, which split none of the bins. */
  ghost predicate IsIdle(gates: Gates, l: Lists, rank: GateId -> nat, bins: seq<Bin>, sim: Interpretation) {
    IsBoolean(gates) && Ranked(gates, rank) && SplitsNothing(bins, sim)
    && exists start :: SimOk(gates, l, rank, start, sim)
  }

  lemma IdleRound(gates: Gates, l: Lists, rank: GateId -> nat, bins: seq<Bin>, start: Interpretation, sim: Interpretation)
    requires IsBoolean(gates) && Ranked(gates, rank) && SimOk(gates, l, rank, start, sim) && SplitsNothing(bins, sim)
    ensures IsIdle(gates, l, rank, bins, sim)
  {
    hide SimOk, SplitsNothing, IsBoolean, Ranked;
  }

  lemma CandidatesWeight(gates: Gates, l: Lists, rank: GateId -> nat, bins: seq<Bin>,
                         starts: seq<Interpretation>, sims: seq<Interpretation>)
    requires CandidatesOk(gates, l, rank, bins, starts, sims)
    ensures 0 <= Weight(bins)
  {
    hide SimsOk;
    WeightIsNatural(bins);
  }

  // ----- what the bins mean -----

  /** The valuation in round i. */
  ghost function Round(gates: Gates, rank: GateId -> nat, starts: seq<Interpretation>, i: nat): (v: Valuation)
    requires IsBoolean(gates) && Ranked(gates, rank) && i < |starts|
  {
    Meaning(gates, rank, starts[i])
  }

  ghost predicate SameInAllRounds(gates: Gates, rank: GateId -> nat, starts: seq<Interpretation>, g: GateId, h: GateId)
    requires IsBoolean(gates) && Ranked(gates, rank)
  {
    forall i: nat | i < |starts| :: Round(gates, rank, starts, i)(g) == Round(gates, rank, starts, i)(h)
  }

  /** Two gates share a bin exactly if they had the same value in every round. */
  lemma TogetherMeansSame(gates: Gates, l: Lists, rank: GateId -> nat, bins: seq<Bin>,
                          starts: seq<Interpretation>, sims: seq<Interpretation>, g: GateId, h: GateId)
    requires CandidatesOk(gates, l, rank, bins, starts, sims)
    requires g in FirstBin(l) && h in FirstBin(l) && g != h
    ensures Together(bins, g, h) <==> SameInAllRounds(gates, rank, starts, g, h)
  {
    hide IsBoolean, Ranked, Meaning, Together, SimOk;
    SimsCover(gates, l, rank, starts, sims, g, h);
    forall i: nat | i < |sims|
      ensures sims[i][g] == Round(gates, rank, starts, i)(g) && sims[i][h] == Round(gates, rank, starts, i)(h)
    {
      assert SimOk(gates, l, rank, starts[i], sims[i]);
      SimValues(gates, l, rank, starts[i], sims[i], g);
      SimValues(gates, l, rank, starts[i], sims[i], h);
    }
  }

  lemma SimsCover(gates: Gates, l: Lists, rank: GateId -> nat, starts: seq<Interpretation>, sims: seq<Interpretation>,
                  g: GateId, h: GateId)
    requires SimsOk(gates, l, rank, starts, sims) && g in FirstBin(l) && h in FirstBin(l)
    ensures AllCover(sims, {g, h})
  {
    hide IsBoolean, Ranked, Meaning;
    forall i | 0 <= i < |sims|
      ensures {g, h} <= sims[i].Keys
    {
      assert SimOk(gates, l, rank, starts[i], sims[i]);
    }
  }

  lemma SimValues(gates: Gates, l: Lists, rank: GateId -> nat, start: Interpretation, sim: Interpretation, g: GateId)
    requires IsBoolean(gates) && Ranked(gates, rank) && SimOk(gates, l, rank, start, sim) && g in FirstBin(l)
    ensures g in sim && sim[g] == Meaning(gates, rank, start)(g)
  {
  }

  /** A gate that has no bin any more differs from every other gate in some round. */
  lemma DroppedGateDiffers(gates: Gates, l: Lists, rank: GateId -> nat, bins: seq<Bin>,
                           starts: seq<Interpretation>, sims: seq<Interpretation>, g: GateId, h: GateId)
    requires CandidatesOk(gates, l, rank, bins, starts, sims) && g in FirstBin(l) && h in FirstBin(l) && g != h
    requires forall bin | bin in bins :: g !in bin
    ensures exists i: nat :: i < |starts| && Round(gates, rank, starts, i)(g) != Round(gates, rank, starts, i)(h)
  {
    hide CandidatesOk;
    assert IsBoolean(gates) && Ranked(gates, rank) by { CandidatesRanked(gates, l, rank, bins, starts, sims); }
    TogetherMeansSame(gates, l, rank, bins, starts, sims, g, h);
  }

  lemma CandidatesRanked(gates: Gates, l: Lists, rank: GateId -> nat, bins: seq<Bin>,
                         starts: seq<Interpretation>, sims: seq<Interpretation>)
    requires CandidatesOk(gates, l, rank, bins, starts, sims)
    ensures IsBoolean(gates) && Ranked(gates, rank) && |starts| == |sims|
  {
  }

  /** Every bin has two gates or more, of which all but the first are listed. */
  ghost predicate BinReady(l: Lists, bin: Bin) {
    && |bin| > 1 && NoDuplicates(bin) && bin[0] in FirstBin(l)
    && forall k | 0 < k < |bin| :: bin[k] in l.listed
  }

  /** ONE and ZERO stand in front of their bins and never share one. */
  lemma ConstantsInFront(gates: Gates, l: Lists, rank: GateId -> nat, bins: seq<Bin>,
                         starts: seq<Interpretation>, sims: seq<Interpretation>, i: nat)
    requires ListsOk(gates, l) && CandidatesOk(gates, l, rank, bins, starts, sims) && starts != [] && i < |bins|
    ensures BinReady(l, bins[i])
  {
    hide IsBoolean, Ranked, SimsOk, AgreeOnAll, Together;
    CandidatesRanked(gates, l, rank, bins, starts, sims);
    var bin := bins[i];
    assert BinOk(bin, (set g | g in FirstBin(l)), Position(l));
    FirstBinOrdered(gates, l);
    FrontGates(l, bin);
    if bin[1] == l.zero && bin[0] == l.one {
      ConstantsApart(gates, l, rank, bins, starts, sims);
      InOneBin(bins, i, l.one, l.zero);
    }
  }

  lemma InOneBin(bins: seq<Bin>, i: nat, g: GateId, h: GateId)
    requires i < |bins| && g in bins[i] && h in bins[i]
    ensures Together(bins, g, h)
  {
  }

  lemma FrontGates(l: Lists, bin: Bin)
    requires Ordered(bin, Position(l)) && (forall g | g in bin :: g in FirstBin(l)) && |bin| > 1
    requires Position(l)(l.one) == 0 && Position(l)(l.zero) == 1 && NoDuplicates(FirstBin(l))
    ensures NoDuplicates(bin)
    ensures forall k | 0 < k < |bin| :: bin[k] in l.listed || (k == 1 && bin[1] == l.zero && bin[0] == l.one)
  {
    forall k | 0 <= k < |bin|
      ensures 0 <= Position(l)(bin[k]) && (bin[k] == l.one || bin[k] == l.zero || bin[k] in l.listed)
      ensures bin[k] != l.one && bin[k] != l.zero ==> Position(l)(bin[k]) >= 2
      ensures Position(l)(bin[k]) == 0 ==> bin[k] == l.one
    {
      assert bin[k] in bin;
      var j: nat :| j < |FirstBin(l)| && FirstBin(l)[j] == bin[k];
      IndexAt(FirstBin(l), j);
    }
    forall k | 0 < k < |bin|
      ensures bin[k] in l.listed || (k == 1 && bin[1] == l.zero && bin[0] == l.one)
    {
      assert Position(l)(bin[0]) < Position(l)(bin[k]);
      assert k > 1 ==> Position(l)(bin[0]) < Position(l)(bin[1]) < Position(l)(bin[k]);
    }
  }

  lemma ConstantsApart(gates: Gates, l: Lists, rank: GateId -> nat, bins: seq<Bin>,
                       starts: seq<Interpretation>, sims: seq<Interpretation>)
    requires ListsOk(gates, l) && CandidatesOk(gates, l, rank, bins, starts, sims) && starts != []
    ensures !Together(bins, l.one, l.zero)
  {
    hide IsBoolean, Ranked, Meaning, Together, SimOk, Consistent, IsPartition;
    CandidatesRanked(gates, l, rank, bins, starts, sims);
    TogetherMeansSame(gates, l, rank, bins, starts, sims, l.one, l.zero);
    assert SimOk(gates, l, rank, starts[0], sims[0]);
    ConstantValues(gates, l, rank, starts[0], sims[0]);
    assert Round(gates, rank, starts, 0)(l.one) != Round(gates, rank, starts, 0)(l.zero);
  }

  lemma ConstantValues(gates: Gates, l: Lists, rank: GateId -> nat, start: Interpretation, sim: Interpretation)
    requires ListsOk(gates, l) && Ranked(gates, rank) && SimOk(gates, l, rank, start, sim)
    ensures var v := Meaning(gates, rank, start); Consistent(gates, v) && v(l.one) && !v(l.zero)
  {
    StartAgrees(gates, l, rank, start);
  }
}
