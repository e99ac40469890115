/** What a pass of the sweep that is not cut short achieves, and when it reports a change. */
module SweepOutcome {
  import opened GateGraph
  import opened BooleanCircuit
  import opened LevelSearch
  import opened Bins
  import opened Simulation
  import opened SweepLevels
  import opened Candidates
  import opened Rewiring
  import opened Sweep

  /** A pass over all bins of the circuit before. */
  ghost predicate IsPass(before: Gates, gates: Gates, l: Lists, levels: LevelMap, rank: GateId -> nat, run: Run,
                         stored: seq<Interpretation>)
  {
    && ListsOk(before, l) && IsBoolean(before) && Ranked(before, rank) && run.starts != []
    && BinsDone(before, gates, l, levels, rank, run, stored, |run.bins|)
  }

  ghost predicate TrueInAllRounds(before: Gates, rank: GateId -> nat, run: Run, g: GateId)
    requires IsBoolean(before) && Ranked(before, rank)
  {
    forall i: nat | i < |run.starts| :: Round(before, rank, run.starts, i)(g)
  }

  /** ONE's bin exists and has got its counterexample. */
  ghost predicate OneIsRefuted(l: Lists, run: Run) {
    exists i :: i in run.refuted && i < |run.bins| && run.bins[i] != [] && run.bins[i][0] == l.one
  }

  /** What a bin of a pass looks like. */
  lemma BinFacts(before: Gates, gates: Gates, l: Lists, levels: LevelMap, rank: GateId -> nat, run: Run,
                 stored: seq<Interpretation>, i: nat)
    requires IsPass(before, gates, l, levels, rank, run, stored) && i < |run.bins|
    ensures CandidatesOk(before, l, rank, run.bins, run.starts, run.sims)
    ensures BinReady(l, run.bins[i]) && BinDone(before, gates, l, levels, run, stored, i)
    ensures l.one !in l.listed && l.zero !in l.listed && l.one != l.zero
    ensures forall g | g in run.bins[i] :: g in FirstBin(l) && (g == run.bins[i][0] || g in l.listed)
  {
    hide IsBoolean, Ranked, CandidatesOk, BinDone;
    ConstantsInFront(before, l, rank, run.bins, run.starts, run.sims, i);
    forall g | g in run.bins[i]
      ensures g in FirstBin(l) && (g == run.bins[i][0] || g in l.listed)
    {
      var k :| 0 <= k < |run.bins[i]| && run.bins[i][k] == g;
      assert k > 0 ==> g in l.listed;
    }
  }

  lemma PassFacts(before: Gates, gates: Gates, l: Lists, levels: LevelMap, rank: GateId -> nat, run: Run,
                  stored: seq<Interpretation>)
    requires IsPass(before, gates, l, levels, rank, run, stored)
    ensures ListsOk(before, l) && IsBoolean(before) && Ranked(before, rank) && run.starts != []
    ensures CandidatesOk(before, l, rank, run.bins, run.starts, run.sims)
    ensures l.one in FirstBin(l) && l.zero in FirstBin(l) && (forall g | g in l.listed :: g in FirstBin(l))
    ensures l.one !in l.listed && l.zero !in l.listed && l.one != l.zero
  {
    hide IsBoolean, Ranked, CandidatesOk;
  }

  lemma SameAsOne(before: Gates, gates: Gates, l: Lists, levels: LevelMap, rank: GateId -> nat, run: Run,
                  stored: seq<Interpretation>, g: GateId)
    requires IsPass(before, gates, l, levels, rank, run, stored)
    ensures IsBoolean(before) && Ranked(before, rank)
    ensures SameInAllRounds(before, rank, run.starts, g, l.one) <==> TrueInAllRounds(before, rank, run, g)
  {
    hide IsBoolean, Ranked, Meaning, CandidatesOk, Consistent, BinsDone, Round;
    PassFacts(before, gates, l, levels, rank, run, stored);
    forall i: nat | i < |run.starts|
      ensures Round(before, rank, run.starts, i)(l.one)
    {
      RoundHasOne(before, l, rank, run, i);
    }
  }

  /**
   A constants bin is only asked for gates that are always false. So ONE's bin, if there is one, gets a
   counterexample in every pass; and there is one exactly if some listed gate was true in every round.
   */
  lemma OneIsRefutedIff(before: Gates, gates: Gates, l: Lists, levels: LevelMap, rank: GateId -> nat, run: Run,
                        stored: seq<Interpretation>)
    requires IsPass(before, gates, l, levels, rank, run, stored)
    ensures IsBoolean(before) && Ranked(before, rank)
    ensures OneIsRefuted(l, run) <==> exists g :: g in l.listed && TrueInAllRounds(before, rank, run, g)
  {
    hide IsPass, IsBoolean, Ranked, CandidatesOk, TrueInAllRounds, SameInAllRounds, Together, IsRefuted, IsMerged;
    PassFacts(before, gates, l, levels, rank, run, stored);
    if OneIsRefuted(l, run) {
      var i :| i in run.refuted && i < |run.bins| && run.bins[i] != [] && run.bins[i][0] == l.one;
      BinFacts(before, gates, l, levels, rank, run, stored, i);
      var g := run.bins[i][1];
      assert g in run.bins[i] && l.one in run.bins[i];
      InOneBin(run.bins, i, g, l.one);
      TogetherMeansSame(before, l, rank, run.bins, run.starts, run.sims, g, l.one);
      SameAsOne(before, gates, l, levels, rank, run, stored, g);
    }
    if g :| g in l.listed && TrueInAllRounds(before, rank, run, g) {
      SameAsOne(before, gates, l, levels, rank, run, stored, g);
      TogetherMeansSame(before, l, rank, run.bins, run.starts, run.sims, g, l.one);
      var i := BinOfBoth(run.bins, g, l.one);
      BinFacts(before, gates, l, levels, rank, run, stored, i);
      assert run.bins[i][0] == l.one;
    }
  }

  lemma BinOfBoth(bins: seq<Bin>, g: GateId, h: GateId) returns (i: nat)
    requires Together(bins, g, h)
    ensures i < |bins| && g in bins[i] && h in bins[i]
  {
    i :| 0 <= i < |bins| && g in bins[i] && h in bins[i];
  }

  /** In particular, a pass over a circuit with a gate that is always true finds a counterexample and reports a change. */
  lemma AlwaysTrueNeverSettles(before: Gates, gates: Gates, l: Lists, levels: LevelMap, rank: GateId -> nat, run: Run,
                               stored: seq<Interpretation>, g: GateId)
    requires IsPass(before, gates, l, levels, rank, run, stored)
    requires IsBoolean(before) && g in l.listed && NeverHas(before, g, false)
    ensures OneIsRefuted(l, run) && Unsettled(l, run, |run.bins|)
  {
    PassFacts(before, gates, l, levels, rank, run, stored);
    hide IsPass, IsBoolean, Ranked, CandidatesOk, Meaning, Consistent, BinsDone, Round;
    forall i: nat | i < |run.starts|
      ensures Round(before, rank, run.starts, i)(g)
    {
      RoundHasOne(before, l, rank, run, i);
    }
    OneIsRefutedIff(before, gates, l, levels, rank, run, stored);
    var i :| i in run.refuted && i < |run.bins| && run.bins[i] != [] && run.bins[i][0] == l.one;
    assert UnsettledAt(l, run, i);
  }

  // ----- when a pass reports a change -----

  ghost predicate ZeroIsRefuted(l: Lists, run: Run) {
    exists i :: i in run.refuted && i < |run.bins| && run.bins[i] != [] && run.bins[i][0] == l.zero
  }

  /** Two candidates agreed in every round, without being false in every round. */
  ghost predicate HasLikelyPair(before: Gates, l: Lists, rank: GateId -> nat, run: Run)
    requires IsBoolean(before) && Ranked(before, rank)
  {
    exists g, h :: g in FirstBin(l) && h in FirstBin(l) && g != h
      && SameInAllRounds(before, rank, run.starts, g, h) && !SameInAllRounds(before, rank, run.starts, g, l.zero)
  }

  lemma BinWithoutZero(before: Gates, gates: Gates, l: Lists, levels: LevelMap, rank: GateId -> nat, run: Run,
                       stored: seq<Interpretation>, i: nat)
    requires IsPass(before, gates, l, levels, rank, run, stored) && i < |run.bins|
    requires run.bins[i] == [] || run.bins[i][0] != l.zero
    ensures IsBoolean(before) && Ranked(before, rank) && HasLikelyPair(before, l, rank, run)
  {
    hide IsPass, IsBoolean, Ranked, SameInAllRounds, Together, BinDone;
    PassFacts(before, gates, l, levels, rank, run, stored);
    BinFacts(before, gates, l, levels, rank, run, stored, i);
    var g, h := run.bins[i][0], run.bins[i][1];
    assert g in run.bins[i] && h in run.bins[i] && g != h;
    InOneBin(run.bins, i, g, h);
    TogetherMeansSame(before, l, rank, run.bins, run.starts, run.sims, g, h);
    if SameInAllRounds(before, rank, run.starts, g, l.zero) {
      TogetherMeansSame(before, l, rank, run.bins, run.starts, run.sims, g, l.zero);
      var j := BinOfBoth(run.bins, g, l.zero);
      if j != i {
        BinsAreDisjoint(run.bins, FirstBin(l), run.sims, Position(l), i, j, g);
      }
      assert false;
    }
  }

  lemma PairHasBin(before: Gates, gates: Gates, l: Lists, levels: LevelMap, rank: GateId -> nat, run: Run,
                   stored: seq<Interpretation>)
    returns (i: nat)
    requires IsPass(before, gates, l, levels, rank, run, stored)
    requires IsBoolean(before) && Ranked(before, rank) && HasLikelyPair(before, l, rank, run)
    ensures i < |run.bins| && run.bins[i] != [] && run.bins[i][0] != l.zero
  {
    hide IsPass, IsBoolean, Ranked, SameInAllRounds, Together, BinDone, CandidatesOk;
    PassFacts(before, gates, l, levels, rank, run, stored);
    var g, h :| g in FirstBin(l) && h in FirstBin(l) && g != h
      && SameInAllRounds(before, rank, run.starts, g, h) && !SameInAllRounds(before, rank, run.starts, g, l.zero);
    TogetherMeansSame(before, l, rank, run.bins, run.starts, run.sims, g, h);
    i := BinOfBoth(run.bins, g, h);
    BinFacts(before, gates, l, levels, rank, run, stored, i);
    SameAsItself(before, rank, run.starts, l.zero);
    if run.bins[i][0] == l.zero {
      InOneBin(run.bins, i, g, l.zero);
      TogetherMeansSame(before, l, rank, run.bins, run.starts, run.sims, g, l.zero);
      assert false;
    }
  }

  lemma SameAsItself(gates: Gates, rank: GateId -> nat, starts: seq<Interpretation>, g: GateId)
    requires IsBoolean(gates) && Ranked(gates, rank)
    ensures SameInAllRounds(gates, rank, starts, g, g)
  {
    hide IsBoolean, Ranked, Round;
  }

  /**
   By the contract of MinimizePass, a pass reports a change exactly if it is unsettled. That is: two
   candidates could not be told apart by simulation and were not false throughout, or a gate that was
   false throughout is not always false.
   */
  lemma UnsettledIff(before: Gates, gates: Gates, l: Lists, levels: LevelMap, rank: GateId -> nat, run: Run,
                     stored: seq<Interpretation>)
    requires IsPass(before, gates, l, levels, rank, run, stored)
    ensures IsBoolean(before) && Ranked(before, rank)
    ensures Unsettled(l, run, |run.bins|) <==> HasLikelyPair(before, l, rank, run) || ZeroIsRefuted(l, run)
  {
    PassFacts(before, gates, l, levels, rank, run, stored);
    hide IsPass, IsBoolean, Ranked, HasLikelyPair, CandidatesOk;
    if Unsettled(l, run, |run.bins|) {
      var i: nat :| i < |run.bins| && UnsettledAt(l, run, i);
      if run.bins[i][0] != l.zero {
        BinWithoutZero(before, gates, l, levels, rank, run, stored, i);
      }
    }
    if HasLikelyPair(before, l, rank, run) {
      var i := PairHasBin(before, gates, l, levels, rank, run, stored);
      assert UnsettledAt(l, run, i);
    }
    if ZeroIsRefuted(l, run) {
      var i :| i in run.refuted && i < |run.bins| && run.bins[i] != [] && run.bins[i][0] == l.zero;
      assert UnsettledAt(l, run, i);
    }
  }

  // ----- completeness -----

  /**
   The sweep misses nothing: two listed gates that are equal under all inputs share a bin, and unless a
   counterexample was found in that bin one of them has no fanouts after the pass.
   */
  lemma EqualGatesAreMerged(before: Gates, gates: Gates, l: Lists, levels: LevelMap, rank: GateId -> nat, run: Run,
                            stored: seq<Interpretation>, g: GateId, h: GateId)
    returns (i: nat)
    requires IsPass(before, gates, l, levels, rank, run, stored)
    requires IsBoolean(before) && g in l.listed && h in l.listed && g != h && EqualGates(before, g, h)
    ensures i < |run.bins| && g in run.bins[i] && h in run.bins[i]
    ensures i in run.refuted
            || (g in gates && gates[g].fanouts == []) || (h in gates && gates[h].fanouts == [])
  {
    PassFacts(before, gates, l, levels, rank, run, stored);
    hide IsPass, IsBoolean, Ranked, CandidatesOk, Together, Consistent, EqualGates, IsRefuted;
    forall j: nat | j < |run.starts|
      ensures Round(before, rank, run.starts, j)(g) == Round(before, rank, run.starts, j)(h)
    {
      RoundHasOne(before, l, rank, run, j);
      EqualIn(before, g, h, Round(before, rank, run.starts, j));
    }
    hide Round;
    TogetherMeansSame(before, l, rank, run.bins, run.starts, run.sims, g, h);
    i := BinOfBoth(run.bins, g, h);
    BinFacts(before, gates, l, levels, rank, run, stored, i);
    if i !in run.refuted {
      MergedTail(gates, l, levels, run.bins[i], g, h);
    }
  }

  lemma MergedTail(gates: Gates, l: Lists, levels: LevelMap, bin: Bin, g: GateId, h: GateId)
    requires bin != [] && IsMerged(gates, l, levels, bin) && g in bin && h in bin && g != h
    ensures (g in gates && gates[g].fanouts == []) || (h in gates && gates[h].fanouts == [])
  {
    var k :| 0 <= k < |bin| && bin[k] == g;
    var j :| 0 <= j < |bin| && bin[j] == h;
    assert k > 0 ==> bin[1..][k - 1] == g;
    assert j > 0 ==> bin[1..][j - 1] == h;
  }

  /** Likewise, a listed gate that is always false has no fanouts any more, unless ZERO's bin got a counterexample. */
  lemma AlwaysFalseIsMerged(before: Gates, gates: Gates, l: Lists, levels: LevelMap, rank: GateId -> nat, run: Run,
                            stored: seq<Interpretation>, g: GateId)
    requires IsPass(before, gates, l, levels, rank, run, stored)
    requires IsBoolean(before) && g in l.listed && NeverHas(before, g, true)
    ensures ZeroIsRefuted(l, run) || (g in gates && gates[g].fanouts == [])
  {
    PassFacts(before, gates, l, levels, rank, run, stored);
    hide IsPass, IsBoolean, Ranked, CandidatesOk, Together, Consistent, EqualGates, IsRefuted;
    forall j: nat | j < |run.starts|
      ensures Round(before, rank, run.starts, j)(g) == Round(before, rank, run.starts, j)(l.zero)
    {
      RoundHasOne(before, l, rank, run, j);
      ConstantsHold(before, l, Round(before, rank, run.starts, j));
    }
    hide Round;
    TogetherMeansSame(before, l, rank, run.bins, run.starts, run.sims, g, l.zero);
    var i := BinOfBoth(run.bins, g, l.zero);
    BinFacts(before, gates, l, levels, rank, run, stored, i);
    assert run.bins[i][0] == l.zero;
    if i !in run.refuted {
      ZeroTail(gates, l, levels, run.bins[i], g);
    }
  }

  lemma ZeroTail(gates: Gates, l: Lists, levels: LevelMap, bin: Bin, g: GateId)
    requires bin != [] && IsMerged(gates, l, levels, bin) && bin[0] == l.zero && g in bin && g != l.zero
    ensures g in gates && gates[g].fanouts == []
  {
    var k :| 0 <= k < |bin| && bin[k] == g;
    assert bin[1..][k - 1] == g;
  }

  // ----- a circuit -----

  /** x OR NOT x: the gates are ONE 1, ZERO 2, x 3, NOT x 4, the OR 5 and its OUTPUT 6. */
  function TautologyAt(g: GateId): (gate: Gate) {
    match g
    case 1 => Gate(ONE, 1, 0, [], [Fanout(0, Wire(2, 0))])
    case 2 => Gate(NOT, 1, 0, [Wire(1, 0)], [])
    case 3 => Gate(INPUT, 1, 0, [], [Fanout(0, Wire(4, 0)), Fanout(0, Wire(5, 0))])
    case 4 => Gate(NOT, 1, 0, [Wire(3, 0)], [Fanout(0, Wire(5, 1))])
    case 5 => Gate(OR, 1, 0, [Wire(3, 0), Wire(4, 0)], [Fanout(0, Wire(6, 0))])
    case _ => Gate(OUTPUT, 1, 0, [Wire(5, 0)], [])
  }

  const TAUTOLOGY: Gates := map g: GateId | 1 <= g <= 6 :: TautologyAt(g)

  const TAUTOLOGY_LISTS: Lists := Lists(1, 2, [3], [4, 5])

  ghost function Numbered(g: GateId): (n: nat) { g }

  lemma TautologyNumbers()
    ensures forall g: GateId :: g in TAUTOLOGY <==> 1 <= g <= 6
    ensures forall g: GateId | 1 <= g <= 6 :: TAUTOLOGY[g] == TautologyAt(g)
  {
  }

  lemma TautologyGate(g: GateId)
    requires 1 <= g <= 6
    ensures g in TAUTOLOGY && TAUTOLOGY[g] == TautologyAt(g)
    ensures GateIsBoolean(TautologyAt(g)) && NoDuplicates(TautologyAt(g).fanouts)
    ensures forall w | w in TautologyAt(g).fanins :: 1 <= w.gate < g
    ensures forall i: nat | i < |TautologyAt(g).fanins| :: FaninMirrored(TAUTOLOGY, g, i)
    ensures forall i: nat | i < |TautologyAt(g).fanouts| :: FanoutMirrored(TAUTOLOGY, g, i)
  {
    TautologyNumbers();
    hide TAUTOLOGY;
    assert TautologyAt(3).fanouts[1] == Fanout(0, Wire(5, 0)) && TautologyAt(3).fanouts[0] == Fanout(0, Wire(4, 0));
    assert TautologyAt(4).fanouts[0] == Fanout(0, Wire(5, 1)) && TautologyAt(5).fanouts[0] == Fanout(0, Wire(6, 0));
    assert TautologyAt(1).fanouts[0] == Fanout(0, Wire(2, 0));
  }

  /** A pass over this circuit that is not cut short reports a change, whatever the random inputs and the solver's models are. */
  method SweepTautology(circuit: SimpleCircuit, checker: Checker, clock: Clock, interpretations: seq<Interpretation>)
    returns (ok: bool, changed: bool, stored: seq<Interpretation>, ghost run: Run)
    requires Sound(checker) && circuit.gates == TAUTOLOGY && circuit.lists == TAUTOLOGY_LISTS && interpretations != []
    requires forall m | m in interpretations :: IsStart(TAUTOLOGY, TAUTOLOGY_LISTS, m)
    modifies circuit, clock
    ensures ok && (clock.stopped || (changed && OneIsRefuted(TAUTOLOGY_LISTS, run)))
  {
    TautologyIsCircuit();
    TautologyIsTrue();
    hide TAUTOLOGY, IsBoolean, Ranked, ListsOk, NeverHas, Sound, IsStart, IsPass, BinsDone, Unsettled, PassedWith, CycleReachable, OneIsRefuted;
    ghost var levels, rank;
    ok, changed, stored, levels, rank, run := MinimizePass(circuit, checker, clock, interpretations);
    if !ok {
      ghost var g :| g in TAUTOLOGY_LISTS.listed && CycleReachable(TAUTOLOGY, g);
      RankedHasNoCycle(TAUTOLOGY, Numbered, g);
    }
    if !clock.stopped {
      PassIsDone(TAUTOLOGY, circuit.gates, TAUTOLOGY_LISTS, levels, rank, run, stored);
      AlwaysTrueNeverSettles(TAUTOLOGY, circuit.gates, TAUTOLOGY_LISTS, levels, rank, run, stored, 5);
    }
  }

  /** There are a solver and inputs to start with. */
  lemma TautologyCanBeSwept() returns (checker: Checker, start: Interpretation)
    ensures Sound(checker) && ListsOk(TAUTOLOGY, TAUTOLOGY_LISTS) && IsStart(TAUTOLOGY, TAUTOLOGY_LISTS, start)
  {
    checker := SoundCheckerExists();
    TautologyIsCircuit();
    start := map[1 := true, 2 := false, 3 := true];
    hide Sound, ListsOk, TAUTOLOGY;
  }

  lemma PassIsDone(before: Gates, gates: Gates, l: Lists, levels: LevelMap, rank: GateId -> nat, run: Run,
                   stored: seq<Interpretation>)
    requires ListsOk(before, l) && IsBoolean(before) && run.starts != []
    requires BinsDone(before, gates, l, levels, rank, run, stored, |run.bins|)
    ensures IsPass(before, gates, l, levels, rank, run, stored)
  {
    hide IsBoolean, Ranked, ListsOk, CandidatesOk, BinDone;
    CandidatesRanked(before, l, rank, run.bins, run.starts, run.sims);
  }

  lemma TautologyIsCircuit()
    ensures IsBoolean(TAUTOLOGY) && Ranked(TAUTOLOGY, Numbered) && ListsOk(TAUTOLOGY, TAUTOLOGY_LISTS)
  {
    TautologyIsBoolean();
    TautologyNumbers();
    hide TAUTOLOGY, IsBoolean, Ranked;
    var l := TAUTOLOGY_LISTS;
    forall g: GateId
      ensures g in l.inputs <==> g in TAUTOLOGY && TAUTOLOGY[g].op == INPUT
      ensures g in l.listed <==> g in TAUTOLOGY && IsLogic(TAUTOLOGY[g].op) && g != l.zero
      ensures g in TAUTOLOGY && TAUTOLOGY[g].op == ONE ==> g == l.one
    {
    }
    assert l.listed[0] != l.listed[1];
  }

  lemma TautologyIsBoolean()
    ensures IsBoolean(TAUTOLOGY) && Ranked(TAUTOLOGY, Numbered)
  {
    TautologyNumbers();
    hide TAUTOLOGY, FaninMirrored, FanoutMirrored, NoDuplicates, GateIsBoolean;
    forall g: GateId | 1 <= g <= 6
      ensures g in TAUTOLOGY && TAUTOLOGY[g] == TautologyAt(g)
      ensures GateIsBoolean(TautologyAt(g)) && NoDuplicates(TautologyAt(g).fanouts)
      ensures forall w | w in TautologyAt(g).fanins :: 1 <= w.gate < g
      ensures forall i: nat | i < |TautologyAt(g).fanins| :: FaninMirrored(TAUTOLOGY, g, i)
      ensures forall i: nat | i < |TautologyAt(g).fanouts| :: FanoutMirrored(TAUTOLOGY, g, i)
    {
      TautologyGate(g);
    }
    hide TautologyAt;
  }

  lemma TautologyIsTrue()
    ensures IsBoolean(TAUTOLOGY) && NeverHas(TAUTOLOGY, 5, false)
  {
    TautologyIsCircuit();
    TautologyNumbers();
    hide TAUTOLOGY, IsBoolean;
    forall v: Valuation | Consistent(TAUTOLOGY, v)
      ensures v(5)
    {
      assert Holds(TAUTOLOGY[4], 4, v) && Holds(TAUTOLOGY[5], 5, v);
    }
  }
}
