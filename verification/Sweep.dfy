/** The SAT-sweeping pass: candidate-equal gates are checked and merged in place. */
module Sweep {
  import opened Basics
  import opened GateGraph
  import opened BooleanCircuit
  import opened LevelSearch
  import opened Bins
  import opened Simulation
  import opened SweepLevels
  import opened Candidates
  import opened Rewiring

  /**
   equivalence_checkert: findDifference looks for inputs under which two gates differ, findValue for
   inputs under which a gate has the given value. None is the answer UNSAT.
   */
  datatype Checker = Checker(findDifference: (Gates, GateId, GateId) -> Option<Interpretation>,
                             findValue: (Gates, GateId, bool) -> Option<Interpretation>)

  /** What a solver is asked about: gates of a Boolean circuit without cycles. */
  ghost predicate Asked(gates: Gates, a: GateId, b: GateId) {
    IsBoolean(gates) && a in gates && b in gates && exists rank: GateId -> nat :: Ranked(gates, rank)
  }

  /** The solver is right, both when it says UNSAT and when it gives a model. */
  ghost predicate Sound(checker: Checker) {
    && (forall gates, a, b | Asked(gates, a, b) && checker.findDifference(gates, a, b) == None ::
          EqualGates(gates, a, b))
    && (forall gates, g, value | Asked(gates, g, g) && checker.findValue(gates, g, value) == None ::
          NeverHas(gates, g, value))
    && (forall gates, a, b, v: Valuation |
          Asked(gates, a, b) && checker.findDifference(gates, a, b).Some? && Consistent(gates, v)
          && HasInputs(gates, checker.findDifference(gates, a, b).value, v) :: v(a) != v(b))
    && (forall gates, g, value, v: Valuation |
          Asked(gates, g, g) && checker.findValue(gates, g, value).Some? && Consistent(gates, v)
          && HasInputs(gates, checker.findValue(gates, g, value).value, v) :: v(g) == value)
  }

  /** The inputs have the values of the model; inputs it does not name do not matter. */
  ghost predicate HasInputs(gates: Gates, model: Interpretation, v: Valuation) {
    forall g | g in gates && gates[g].op == INPUT && g in model :: v(g) == model[g]
  }

  /** Under the inputs in m the two gates differ. */
  ghost predicate Separates(gates: Gates, m: Interpretation, a: GateId, b: GateId) {
    IsBoolean(gates) && forall v: Valuation | Consistent(gates, v) && AgreesWith(v, m) :: v(a) != v(b)
  }

  ghost predicate SeparatesSome(gates: Gates, m: Interpretation, bin: Bin) {
    exists a, b :: a in bin && b in bin && Separates(gates, m, a, b)
  }

  // ----- there is such a solver -----

  /** Inputs under which the two gates differ, if there are any. */
  ghost function SeparatingInputs(gates: Gates, a: GateId, b: GateId): (m: Option<Interpretation>) {
    if Asked(gates, a, b) && !EqualGates(gates, a, b) then
      var v: Valuation :| Consistent(gates, v) && v(a) != v(b);
      Some(InputsOf(gates, v))
    else None
  }

  ghost function InputsGiving(gates: Gates, g: GateId, value: bool): (m: Option<Interpretation>) {
    if Asked(gates, g, g) && !NeverHas(gates, g, value) then
      var v: Valuation :| Consistent(gates, v) && v(g) == value;
      Some(InputsOf(gates, v))
    else None
  }

  ghost function InputsOf(gates: Gates, v: Valuation): (m: Interpretation) {
    map g | g in gates && gates[g].op == INPUT :: v(g)
  }

  /** The inputs decide all values. */
  lemma InputsDecide(gates: Gates, v: Valuation, w: Valuation, g: GateId)
    requires Asked(gates, g, g) && Consistent(gates, v) && Consistent(gates, w) && HasInputs(gates, InputsOf(gates, v), w)
    ensures w(g) == v(g)
  {
    hide IsBoolean, Consistent;
    var rank: GateId -> nat :| Ranked(gates, rank);
    hide Ranked;
    ValuationIsUnique(gates, rank, v, w, g);
  }

  lemma SeparatingInputsSeparate(gates: Gates, a: GateId, b: GateId, w: Valuation)
    requires Asked(gates, a, b) && SeparatingInputs(gates, a, b).Some? && Consistent(gates, w)
    requires HasInputs(gates, SeparatingInputs(gates, a, b).value, w)
    ensures w(a) != w(b)
  {
    hide IsBoolean, Consistent, HasInputs;
    var v: Valuation :| Consistent(gates, v) && v(a) != v(b) && SeparatingInputs(gates, a, b) == Some(InputsOf(gates, v));
    InputsDecide(gates, v, w, a);
    InputsDecide(gates, v, w, b);
  }

  lemma GivenInputsGive(gates: Gates, g: GateId, value: bool, w: Valuation)
    requires Asked(gates, g, g) && InputsGiving(gates, g, value).Some? && Consistent(gates, w)
    requires HasInputs(gates, InputsGiving(gates, g, value).value, w)
    ensures w(g) == value
  {
    hide IsBoolean, Consistent, HasInputs;
    var v: Valuation :| Consistent(gates, v) && v(g) == value && InputsGiving(gates, g, value) == Some(InputsOf(gates, v));
    InputsDecide(gates, v, w, g);
  }

  /** The assumption can be met: a solver that answers with the inputs of any valuation it looks for. */
  lemma SoundCheckerExists() returns (checker: Checker)
    ensures Sound(checker)
  {
    checker := Checker((gates, a, b) => SeparatingInputs(gates, a, b), (gates, g, value) => InputsGiving(gates, g, value));
    hide IsBoolean, Consistent, HasInputs, Ranked;
    forall gates, a, b | Asked(gates, a, b) && checker.findDifference(gates, a, b) == None
      ensures IsBoolean(gates) && EqualGates(gates, a, b)
    {
      NoneMeansEqual(gates, a, b);
    }
    forall gates, g, value | Asked(gates, g, g) && checker.findValue(gates, g, value) == None
      ensures IsBoolean(gates) && NeverHas(gates, g, value)
    {
      NoneMeansNever(gates, g, value);
    }
    hide SeparatingInputs, InputsGiving, EqualGates, NeverHas;
    forall gates, a, b, v: Valuation |
      Asked(gates, a, b) && checker.findDifference(gates, a, b).Some? && Consistent(gates, v)
      && HasInputs(gates, checker.findDifference(gates, a, b).value, v)
      ensures v(a) != v(b)
    {
      SeparatingInputsSeparate(gates, a, b, v);
    }
    forall gates, g, value, v: Valuation |
      Asked(gates, g, g) && checker.findValue(gates, g, value).Some? && Consistent(gates, v)
      && HasInputs(gates, checker.findValue(gates, g, value).value, v)
      ensures v(g) == value
    {
      GivenInputsGive(gates, g, value, v);
    }
  }

  lemma NoneMeansEqual(gates: Gates, a: GateId, b: GateId)
    requires Asked(gates, a, b) && SeparatingInputs(gates, a, b) == None
    ensures IsBoolean(gates) && EqualGates(gates, a, b)
  {
    hide IsBoolean, EqualGates;
  }

  lemma NoneMeansNever(gates: Gates, g: GateId, value: bool)
    requires Asked(gates, g, g) && InputsGiving(gates, g, value) == None
    ensures IsBoolean(gates) && NeverHas(gates, g, value)
  {
    hide IsBoolean, NeverHas;
  }

  ghost predicate NeverHas(gates: Gates, g: GateId, value: bool)
    requires IsBoolean(gates)
  {
    forall v: Valuation | Consistent(gates, v) :: v(g) != value
  }

  // ----- order_bin -----

  ghost predicate Sorted(bin: Bin, levels: LevelMap) {
    (forall g | g in bin :: g in levels)
    && forall i, j | 0 <= i < j < |bin| :: levels[bin[i]] <= levels[bin[j]]
  }

  /** The gates of one level, in order. */
  ghost function AtLevel(bin: Bin, levels: LevelMap, d: int): (s: Bin) {
    if bin == [] then []
    else
      var last := bin[|bin| - 1];
      AtLevel(bin[..|bin| - 1], levels, d) + if last in levels && levels[last] == d then [last] else []
  }

  /** Gates of equal level keep their order. */
  ghost predicate SameWithinLevels(a: Bin, b: Bin, levels: LevelMap) {
    forall d :: AtLevel(a, levels, d) == AtLevel(b, levels, d)
  }

  lemma {:induction false} AtLevelAppend(a: Bin, b: Bin, levels: LevelMap, d: int)
    ensures AtLevel(a + b, levels, d) == AtLevel(a, levels, d) + AtLevel(b, levels, d)
    decreases |b|
  {
    if b == [] {
      assert a + b == a;
    } else {
      assert (a + b)[..|a + b| - 1] == a + b[..|b| - 1];
      AtLevelAppend(a, b[..|b| - 1], levels, d);
    }
  }

  lemma {:induction false} NoneAtLevel(bin: Bin, levels: LevelMap, d: int)
    requires forall g | g in bin :: g in levels && levels[g] != d
    ensures AtLevel(bin, levels, d) == []
    decreases |bin|
  {
    if bin != [] {
      NoneAtLevel(bin[..|bin| - 1], levels, d);
    }
  }

  lemma InsertedAtLevel(front: Bin, back: Bin, g: GateId, levels: LevelMap, d: int)
    requires g in levels && forall h | h in back :: h in levels && levels[h] > levels[g]
    ensures AtLevel(front + [g] + back, levels, d) == AtLevel(front + back + [g], levels, d)
  {
    hide AtLevel;
    AtLevelAppend(front + [g], back, levels, d);
    AtLevelAppend(front, [g], levels, d);
    AtLevelAppend(front + back, [g], levels, d);
    AtLevelAppend(front, back, levels, d);
    if levels[g] == d {
      NoneAtLevel(back, levels, d);
    } else {
      OneAtLevel(g, levels, d);
    }
  }

  lemma OneAtLevel(g: GateId, levels: LevelMap, d: int)
    requires g in levels && levels[g] != d
    ensures AtLevel([g], levels, d) == []
  {
  }

  method OrderBin(bin: Bin, levels: LevelMap) returns (ordered: Bin)
    requires forall g | g in bin :: g in levels
    ensures Sorted(ordered, levels) && SameWithinLevels(ordered, bin, levels)
    ensures multiset(ordered) == multiset(bin)
  {
    hide Sorted, SameWithinLevels;
    ordered := [];
    NothingSorted(levels);
    for k := 0 to |bin|
      invariant Sorted(ordered, levels) && multiset(ordered) == multiset(bin[..k])
      invariant SameWithinLevels(ordered, bin[..k], levels)
    {
      assert bin[k] in bin;
      assert bin[..k + 1] == bin[..k] + [bin[k]];
      AppendWithinLevels(ordered, bin[..k], bin[k], levels);
      var inserted := InsertInOrder(ordered, bin[k], levels);
      WithinLevelsTransitive(inserted, ordered + [bin[k]], bin[..k + 1], levels);
      ordered := inserted;
    }
    assert bin[..|bin|] == bin;
  }

  lemma AppendWithinLevels(a: Bin, b: Bin, g: GateId, levels: LevelMap)
    requires SameWithinLevels(a, b, levels)
    ensures SameWithinLevels(a + [g], b + [g], levels)
  {
    hide AtLevel;
    forall d
      ensures AtLevel(a + [g], levels, d) == AtLevel(b + [g], levels, d)
    {
      AtLevelAppend(a, [g], levels, d);
      AtLevelAppend(b, [g], levels, d);
      assert AtLevel(a, levels, d) == AtLevel(b, levels, d);
    }
  }

  lemma WithinLevelsTransitive(a: Bin, b: Bin, c: Bin, levels: LevelMap)
    requires SameWithinLevels(a, b, levels) && SameWithinLevels(b, c, levels)
    ensures SameWithinLevels(a, c, levels)
  {
    hide AtLevel;
    forall d
      ensures AtLevel(a, levels, d) == AtLevel(c, levels, d)
    {
      assert AtLevel(a, levels, d) == AtLevel(b, levels, d);
    }
  }

  /** The insertion goes before the first gate of a higher level. */
  method InsertInOrder(ordered: Bin, g: GateId, levels: LevelMap) returns (inserted: Bin)
    requires Sorted(ordered, levels) && g in levels
    ensures Sorted(inserted, levels) && multiset(inserted) == multiset(ordered) + multiset{g}
    ensures SameWithinLevels(inserted, ordered + [g], levels)
  {
    assert forall g | g in ordered :: g in levels;
    hide AtLevel, SameWithinLevels, Sorted;
    var i := 0;
    while i < |ordered| && levels[ordered[i]] <= levels[g]
      invariant i <= |ordered|
      invariant forall j | 0 <= j < i :: levels[ordered[j]] <= levels[g]
    {
      i := i + 1;
    }
    InsertKeepsSorted(ordered, levels, i, g);
    InsertKeepsLevels(ordered, levels, i, g);
    InsertKeepsElements(ordered, i, g);
    inserted := ordered[..i] + [g] + ordered[i..];
  }

  lemma InsertKeepsElements(ordered: Bin, i: nat, g: GateId)
    requires i <= |ordered|
    ensures multiset(ordered[..i] + [g] + ordered[i..]) == multiset(ordered) + multiset{g}
  {
    assert ordered == ordered[..i] + ordered[i..];
  }

  lemma InsertKeepsLevels(ordered: Bin, levels: LevelMap, i: nat, g: GateId)
    requires Sorted(ordered, levels) && i <= |ordered| && g in levels
    requires i < |ordered| ==> levels[g] < levels[ordered[i]]
    ensures SameWithinLevels(ordered[..i] + [g] + ordered[i..], ordered + [g], levels)
  {
    hide AtLevel;
    var front, back := ordered[..i], ordered[i..];
    assert ordered == front + back;
    forall h | h in back
      ensures h in levels && levels[h] > levels[g]
    {
      var j :| 0 <= j < |back| && back[j] == h;
      assert h == ordered[i + j] && h in ordered;
    }
    forall d
      ensures AtLevel(front + [g] + back, levels, d) == AtLevel(ordered + [g], levels, d)
    {
      InsertedAtLevel(front, back, g, levels, d);
    }
  }

  lemma NothingSorted(levels: LevelMap)
    ensures Sorted([], levels) && SameWithinLevels([], [], levels)
  {
  }

  lemma InsertKeepsSorted(ordered: Bin, levels: LevelMap, i: nat, g: GateId)
    requires Sorted(ordered, levels) && i <= |ordered| && g in levels
    requires forall j | 0 <= j < i :: levels[ordered[j]] <= levels[g]
    requires i < |ordered| ==> levels[g] <= levels[ordered[i]]
    ensures Sorted(ordered[..i] + [g] + ordered[i..], levels)
  {
  }

  lemma SameElements(a: Bin, b: Bin)
    requires multiset(a) == multiset(b)
    ensures |a| == |b| && (forall g :: g in a <==> g in b) && (NoDuplicates(b) ==> NoDuplicates(a))
  {
    assert |multiset(a)| == |a| && |multiset(b)| == |b|;
    forall g
      ensures g in a <==> g in b
    {
      assert g in a <==> g in multiset(a);
      assert g in b <==> g in multiset(b);
    }
    if NoDuplicates(b) {
      forall g
        ensures multiset(b)[g] <= 1
      {
        CountOfDistinct(b, g);
      }
      forall i, j | 0 <= i < j < |a|
        ensures a[i] != a[j]
      {
        CountOfTwo(a, i, j);
      }
    }
  }

  lemma {:induction false} CountOfDistinct(b: Bin, g: GateId)
    requires NoDuplicates(b)
    ensures multiset(b)[g] <= 1
    decreases |b|
  {
    if b != [] {
      assert b == b[..|b| - 1] + [b[|b| - 1]];
      CountOfDistinct(b[..|b| - 1], g);
    }
  }

  lemma CountOfTwo(a: Bin, i: nat, j: nat)
    requires i < j < |a|
    ensures a[i] == a[j] ==> multiset(a)[a[i]] >= 2
  {
    assert a == a[..j] + [a[j]] + a[j + 1..];
    assert a[i] == a[..j][i];
    assert a[i] in multiset(a[..j]);
  }

  // ----- the invariant of the pass -----

  /**
   The circuit still means what it meant, and the numbers given at the start still go up along every
   wire that there is now.
   */
  ghost predicate Swept(before: Gates, gates: Gates, l: Lists, rank: GateId -> nat) {
    && IsBoolean(before) && ListsOk(gates, l) && Ranked(gates, rank)
    && SameMeaning(before, gates)
  }

  /** The recorded levels are the numbers of the listed gates, and ZERO is not above them. */
  ghost predicate LevelsMatch(l: Lists, levels: LevelMap, rank: GateId -> nat) {
    && (forall g | g in l.listed :: g in levels && levels[g] == rank(g) && 1 <= rank(g))
    && rank(l.zero) == 1
  }

  lemma ListsSurvive(gates: Gates, gates': Gates, l: Lists, a: GateId, b: GateId)
    requires ListsOk(gates, l) && a in gates && b in gates && a != b && IsReplaced(gates, gates', a, b)
    requires IsBoolean(gates') && a in l.listed
    ensures ListsOk(gates', l)
  {
    hide IsReplaced, IsBoolean, Mirrored;
    ReplacedKeys(gates, gates', a, b);
    assert ReplacedAt(gates, gates', a, b, l.zero);
    assert forall g | g in gates :: ReplacedAt(gates, gates', a, b, g);
    assert |gates[l.zero].fanins| == 1 by { ZeroArity(gates, l); }
  }

  lemma ZeroArity(gates: Gates, l: Lists)
    requires ListsOk(gates, l)
    ensures |gates[l.zero].fanins| == 1
  {
    assert GateIsBoolean(gates[l.zero]);
  }

  /** One merge of the pass. */
  lemma MergeKeepsSwept(before: Gates, gates: Gates, gates': Gates, l: Lists, rank: GateId -> nat, a: GateId, b: GateId)
    requires Swept(before, gates, l, rank) && a in l.listed && b in gates && a != b && a in gates
    requires gates[b].op != OUTPUT && IsReplaced(gates, gates', a, b)
    requires EqualGates(gates, a, b) && rank(b) <= rank(a)
    ensures Swept(before, gates', l, rank)
  {
    hide IsReplaced, IsBoolean, Ranked, EqualGates, SameMeaning, ListsOk;
    ListsAreBoolean(gates, l);
    MergeKeepsMeaning(gates, gates', a, b, rank);
    ListsSurvive(gates, gates', l, a, b);
    SameMeaningTransitive(before, gates, gates');
  }

  lemma ListedGate(gates: Gates, l: Lists, g: GateId)
    requires ListsOk(gates, l) && (g in l.listed || g == l.zero)
    ensures g in gates && gates[g].op != OUTPUT && gates[g].width == 1 && Mirrored(gates)
  {
    hide Mirrored;
    assert GateIsBoolean(gates[g]);
  }

  // ----- the constants bin -----

  /** v is a valuation of the circuit in which all gates of the bin agree. */
  ghost predicate Witnessed(gates: Gates, bin: Bin, v: Valuation)
    requires IsBoolean(gates)
  {
    Consistent(gates, v) && forall g | g in bin && bin != [] :: v(g) == v(bin[0])
  }

  /**
   A gate of a constants bin is only ever asked about being false. The answer can be yes only in
   ZERO's bin, so no gate is merged into ONE.
   */
  lemma OnlyZeroIsMerged(gates: Gates, l: Lists, bin: Bin, v: Valuation, g: GateId)
    requires ListsOk(gates, l) && Witnessed(gates, bin, v) && g in bin
    requires (bin[0] == l.one || bin[0] == l.zero) && NeverHas(gates, g, true)
    ensures bin[0] == l.zero && EqualGates(gates, g, l.zero)
  {
    hide IsBoolean, Mirrored;
    ConstantsHold(gates, l, v);
    assert v(g) == v(bin[0]);
    forall w: Valuation | Consistent(gates, w)
      ensures w(g) == w(l.zero)
    {
      ConstantsHold(gates, l, w);
    }
  }

  lemma ConstantsHold(gates: Gates, l: Lists, v: Valuation)
    requires ListsOk(gates, l) && Consistent(gates, v)
    ensures v(l.one) && !v(l.zero)
  {
    GateOf(gates, v, l.one);
    GateOf(gates, v, l.zero);
  }

  /** The counterexample for all inputs; those that it leaves open become true. */
  method Complete(gates: Gates, l: Lists, model: Interpretation) returns (m: Interpretation)
    requires ListsOk(gates, l)
    ensures IsStart(gates, l, m)
    ensures forall g | g in l.inputs :: m[g] == if g in model then model[g] else true
  {
    hide IsBoolean;
    m := map[l.one := true, l.zero := false];
    assert l.one != l.zero && l.one !in l.inputs && l.zero !in l.inputs;
    hide ListsOk;
    for i := 0 to |l.inputs|
      invariant l.one in m && l.zero in m && m[l.one] && !m[l.zero]
      invariant forall g | g in l.inputs[..i] :: g in m && m[g] == if g in model then model[g] else true
      invariant forall g | g in m :: g in l.inputs || g == l.one || g == l.zero
    {
      var g := l.inputs[i];
      assert g in l.inputs;
      m := m[g := if g in model then model[g] else true];
    }
    assert l.inputs[..|l.inputs|] == l.inputs;
  }

  class Sweeper {
    const circuit: SimpleCircuit
    const lists: Lists
    const checker: Checker
    const clock: Clock
    ghost const before: Gates
    ghost const rank: GateId -> nat
    ghost const sample: Valuation
    const levels: LevelMap
    var interpretations: seq<Interpretation>

    constructor (circuit: SimpleCircuit, lists: Lists, checker: Checker, clock: Clock, levels: LevelMap,
                 ghost rank: GateId -> nat, ghost sample: Valuation, interpretations: seq<Interpretation>)
      requires Sound(checker) && ListsOk(circuit.gates, lists) && Ranked(circuit.gates, rank)
      requires LevelsMatch(lists, levels, rank) && Consistent(circuit.gates, sample)
      requires forall m | m in interpretations :: IsStart(circuit.gates, lists, m)
      ensures Valid() && this.circuit == circuit && this.clock == clock && before == circuit.gates
      ensures this.lists == lists && this.levels == levels && this.rank == rank && this.sample == sample
      ensures this.checker == checker && this.interpretations == interpretations
    {
      this.circuit := circuit;
      this.lists := lists;
      this.checker := checker;
      this.clock := clock;
      before := circuit.gates;
      this.levels := levels;
      this.rank := rank;
      this.sample := sample;
      this.interpretations := interpretations;
      new;
      SweptAtFirst(circuit.gates, lists, rank);
    }

    ghost predicate Valid()
      reads this, circuit
    {
      && Sound(checker) && Swept(before, circuit.gates, lists, rank) && LevelsMatch(lists, levels, rank)
      && Consistent(circuit.gates, sample)
      && forall m | m in interpretations :: IsStart(circuit.gates, lists, m)
    }

    method AreEquivalent(a: GateId, b: GateId) returns (same: bool, m: Interpretation)
      requires Valid() && a in lists.listed && b in lists.listed
      ensures same ==> IsBoolean(circuit.gates) && EqualGates(circuit.gates, a, b)
      ensures !same ==> IsStart(circuit.gates, lists, m) && Separates(before, m, a, b)
    {
      hide Swept, Consistent, LevelsMatch, IsStart, Separates, Sound, Asked;
      SweptIsBoolean(before, circuit.gates, lists, rank);
      ListedAreAsked(circuit.gates, lists, rank, a, b);
      m := map[];
      var result := checker.findDifference(circuit.gates, a, b);
      same := result == None;
      if !same {
        m := Complete(circuit.gates, lists, result.value);
        ModelSeparates(checker, circuit.gates, lists, a, b, m);
        SeparatesStays(circuit.gates, before, m, a, b);
      } else {
        Unsatisfiable(checker, circuit.gates, a, b);
      }
    }

    /** check_gate, which is only called with false */
    method CheckGate(g: GateId) returns (isFalse: bool, m: Interpretation)
      requires Valid() && g in lists.listed
      ensures isFalse ==> IsBoolean(circuit.gates) && NeverHas(circuit.gates, g, true)
      ensures !isFalse ==> IsStart(circuit.gates, lists, m) && Separates(before, m, lists.zero, g)
    {
      hide Swept, Consistent, LevelsMatch, IsStart, Separates, Sound, Asked;
      SweptIsBoolean(before, circuit.gates, lists, rank);
      ListedAreAsked(circuit.gates, lists, rank, g, g);
      m := map[];
      var result := checker.findValue(circuit.gates, g, true);
      isFalse := result == None;
      if !isFalse {
        m := Complete(circuit.gates, lists, result.value);
        ModelSeparatesFromZero(checker, circuit.gates, lists, g, m);
        SeparatesStays(circuit.gates, before, m, lists.zero, g);
      } else {
        NeverFound(checker, circuit.gates, g);
      }
    }

    /** A merge of a into b. */
    method Merge(a: GateId, b: GateId)
      requires Valid() && a in lists.listed && (b in lists.listed || b == lists.zero) && a != b
      requires IsBoolean(circuit.gates) && EqualGates(circuit.gates, a, b) && rank(b) <= rank(a)
      modifies circuit
      ensures Valid() && a in old(circuit.gates) && b in old(circuit.gates)
      ensures IsReplaced(old(circuit.gates), circuit.gates, a, b)
    {
      hide Sound, Swept, SameMeaning, Ranked, IsBoolean, Consistent, LevelsMatch, EqualGates, IsReplaced, Mirrored;
      SweptIsBoolean(before, circuit.gates, lists, rank);
      ListedGate(circuit.gates, lists, a);
      ListedGate(circuit.gates, lists, b);
      ghost var gates := circuit.gates;
      circuit.ReplaceBy(a, b);
      MergeKeepsSwept(before, gates, circuit.gates, lists, rank, a, b);
      StillConsistent(before, gates, circuit.gates, lists, rank, sample);
      StartsStay(before, gates, circuit.gates, lists, rank, interpretations);
    }

    /** equivalence_check_process_constants_bin: a merge alone does not count as a change here. */
    method ProcessConstantsBin(bin: Bin) returns (changed: bool)
      requires Valid() && BinReady(lists, bin) && (bin[0] == lists.one || bin[0] == lists.zero)
      requires forall g | g in bin :: sample(g) == sample(bin[0])
      modifies this`interpretations, circuit, clock
      ensures Valid() && (old(clock.stopped) ==> clock.stopped)
      ensures changed <==> interpretations != old(interpretations)
      ensures bin[0] == lists.one ==> circuit.gates == old(circuit.gates) && (clock.stopped || changed)
      ensures Refuted(before, lists, bin, old(interpretations), interpretations)
      ensures OnlyBin(old(circuit.gates), circuit.gates, bin)
      ensures clock.stopped || changed || AllMerged(circuit.gates, bin[1..])
    {
      hide Sound, Swept, LevelsMatch, Consistent, IsBoolean, IsStart, Sorted, AllMerged, SameWithinLevels, IsReplaced, Separates, OnlyBin;
      changed := false;
      NothingTouched(circuit.gates, bin);
      ListedHaveLevels(lists, levels, rank, bin);
      var ordered := OrderBin(bin[1..], levels);
      TailOfBin(lists, bin, ordered);
      hide BinReady;
      NoneMerged(circuit.gates, ordered[..0]);
      for i := 0 to |ordered|
        invariant AllMerged(circuit.gates, ordered[..i])
        invariant Valid() && (clock.stopped || !old(clock.stopped)) && !changed
        invariant interpretations == old(interpretations)
        invariant bin[0] == lists.one ==> circuit.gates == old(circuit.gates) && i == 0
        invariant OnlyBin(old(circuit.gates), circuit.gates, bin)
      {
        var over := clock.Timeout();
        if over { return; }
        assert ordered[i] in ordered;
        var isFalse, m := CheckGate(ordered[i]);
        if isFalse {
          SweptIsBoolean(before, circuit.gates, lists, rank);
          OnlyZeroIsMerged(circuit.gates, lists, bin, sample, ordered[i]);
          LevelOfListed(lists, levels, rank, ordered[i]);
          ZeroNotListed(circuit.gates, lists);
          ghost var gates := circuit.gates;
          Merge(ordered[i], bin[0]);
          OneMoreMerged(gates, circuit.gates, ordered[i], bin[0], ordered, 0, i);
          OneMoreTouched(old(circuit.gates), gates, circuit.gates, ordered[i], bin[0], bin);
        } else {
          StoreRefutation(before, lists, bin, interpretations, m, lists.zero, ordered[i]);
          interpretations := interpretations + [m];
          changed := true;
          return;
        }
      }
      assert ordered[..|ordered|] == ordered;
      MergedElements(circuit.gates, ordered, bin[1..]);
    }

    /** The gates go to one of the lowest level, until two of them differ. */
    method ProcessRegularBin(bin: Bin) returns (changed: bool)
      requires Valid() && BinReady(lists, bin) && bin[0] in lists.listed
      modifies this`interpretations, circuit, clock
      ensures Valid() && (old(clock.stopped) ==> clock.stopped)
      ensures Refuted(before, lists, bin, old(interpretations), interpretations)
      ensures OnlyBin(old(circuit.gates), circuit.gates, bin)
      ensures clock.stopped || changed
      ensures !changed ==> circuit.gates == old(circuit.gates) && interpretations == old(interpretations)
      ensures clock.stopped || interpretations != old(interpretations) || MergedToLowest(circuit.gates, bin, levels)
    {
      hide Sound, Swept, LevelsMatch, Consistent, IsBoolean, IsStart, AllMerged, SameWithinLevels, IsReplaced, Separates, OnlyBin;
      changed := false;
      NothingTouched(circuit.gates, bin);
      ListedHaveLevels(lists, levels, rank, bin);
      var ordered := OrderBin(bin, levels);
      SameElements(ordered, bin);
      assert |ordered| == |multiset(ordered)| == |bin|;
      var representative := ordered[0];
      assert representative in ordered;
      NoneMerged(circuit.gates, ordered[1..1]);
      for i := 1 to |ordered|
        invariant Valid() && (clock.stopped || !old(clock.stopped)) && interpretations == old(interpretations)
        invariant AllMerged(circuit.gates, ordered[1..i])
        invariant (!changed ==> circuit.gates == old(circuit.gates)) && (1 < i ==> changed)
        invariant OnlyBin(old(circuit.gates), circuit.gates, bin)
      {
        var over := clock.Timeout();
        if over { return; }
        assert ordered[i] in ordered;
        var same, m := AreEquivalent(representative, ordered[i]);
        if same {
          LevelOfListed(lists, levels, rank, representative);
          LevelOfListed(lists, levels, rank, ordered[i]);
          EqualIsSymmetric(circuit.gates, representative, ordered[i]);
          ghost var gates := circuit.gates;
          Merge(ordered[i], representative);
          OneMoreMerged(gates, circuit.gates, ordered[i], representative, ordered, 1, i);
          OneMoreTouched(old(circuit.gates), gates, circuit.gates, ordered[i], representative, bin);
          changed := true;
        } else {
          StoreRefutation(before, lists, bin, interpretations, m, representative, ordered[i]);
          interpretations := interpretations + [m];
          changed := true;
          return;
        }
      }
      assert ordered[1..|ordered|] == ordered[1..];
      FirstIsLowest(circuit.gates, ordered, bin, levels);
    }

    /** equivalence_check_process_bin */
    method ProcessBin(bin: Bin) returns (changed: bool)
      requires Valid() && BinReady(lists, bin) && forall g | g in bin :: sample(g) == sample(bin[0])
      modifies this`interpretations, circuit, clock
      ensures Valid() && (old(clock.stopped) ==> clock.stopped)
      ensures Refuted(before, lists, bin, old(interpretations), interpretations)
      ensures OnlyBin(old(circuit.gates), circuit.gates, bin)
      ensures interpretations != old(interpretations) ==> changed
      ensures changed ==> interpretations != old(interpretations) || bin[0] in lists.listed
      ensures clock.stopped || (changed <==> bin[0] != lists.zero || interpretations != old(interpretations))
      ensures bin[0] == lists.one || (!changed && bin[0] in lists.listed) ==> circuit.gates == old(circuit.gates)
      ensures clock.stopped || interpretations != old(interpretations)
              || (bin[0] != lists.one && IsMerged(circuit.gates, lists, levels, bin))
    {
      hide Sound, Swept, LevelsMatch, Consistent, IsStart, OnlyBin, AllMerged, MergedToLowest, Refuted;
      if |bin| <= 1 { return false; }
      SweptIsBoolean(before, circuit.gates, lists, rank);
      ZeroNotListed(circuit.gates, lists);
      var front := bin[0];
      if front == lists.zero || front == lists.one {
        changed := ProcessConstantsBin(bin);
      } else {
        changed := ProcessRegularBin(bin);
      }
    }

    /** The loop over the bins. */
    method ProcessBins(bins: seq<Bin>, ghost starts: seq<Interpretation>, ghost sims: seq<Interpretation>)
      returns (changed: bool, ghost run: Run)
      requires Valid() && before == circuit.gates && CandidatesOk(before, lists, rank, bins, starts, sims) && starts != []
      requires IsBoolean(before) && Ranked(before, rank) && sample == Meaning(before, rank, starts[0])
      modifies this`interpretations, circuit, clock
      ensures Valid() && (old(clock.stopped) ==> clock.stopped) && old(interpretations) <= interpretations
      ensures run == Run(bins, starts, sims, run.refuted) && (run.refuted != {} ==> changed)
      ensures clock.stopped || BinsDone(before, circuit.gates, lists, levels, rank, run, interpretations, |bins|)
      ensures clock.stopped || (changed <==> Unsettled(lists, run, |bins|))
    {
      hide Sound, Swept, LevelsMatch, CandidatesOk, IsBoolean, Ranked, Meaning, BinsDone, OnlyBin, IsMerged, Refuted, Consistent, ListsOk, IsStart;
      changed, run := false, Run(bins, starts, sims, {});
      NoBinDone(before, lists, levels, rank, run, interpretations);
      SweptIsBoolean(before, circuit.gates, lists, rank);
      for i := 0 to |bins|
        invariant Valid() && (old(clock.stopped) ==> clock.stopped) && old(interpretations) <= interpretations
        invariant run == Run(bins, starts, sims, run.refuted) && (run.refuted != {} ==> changed)
        invariant clock.stopped || BinsDone(before, circuit.gates, lists, levels, rank, run, interpretations, i)
        invariant clock.stopped || (changed <==> Unsettled(lists, run, i))
      {
        var over := clock.Timeout();
        if over { return; }
        BinsAgree(before, lists, rank, bins, starts, sims, i);
        ghost var gates, stored := circuit.gates, interpretations;
        var binChanged := ProcessBin(bins[i]);
        RefutedGrows(before, lists, bins[i], stored, interpretations);
        if !clock.stopped {
          OneMoreUnsettled(before, gates, lists, levels, rank, run, stored, i, interpretations != stored);
          OneMoreBin(before, gates, circuit.gates, lists, levels, rank, run, stored, interpretations, i);
        }
        run := WithRefuted(run, i, interpretations != stored);
        if binChanged {
          changed := true;
        }
      }
    }
  }

  lemma RefutedGrows(before: Gates, l: Lists, bin: Bin, ms: seq<Interpretation>, ms': seq<Interpretation>)
    requires bin != [] && Refuted(before, l, bin, ms, ms')
    ensures ms <= ms'
  {
    hide SeparatesSome;
  }

  /** At most one counterexample is added; it separates two gates of the bin unless that is ONE's. */
  ghost predicate Refuted(before: Gates, l: Lists, bin: Bin, ms: seq<Interpretation>, ms': seq<Interpretation>)
    requires bin != []
  {
    || ms' == ms
    || (|ms'| == |ms| + 1 && ms <= ms' && (bin[0] == l.one || SeparatesSome(before, ms'[|ms|], bin)))
  }

  /** Only gates of the bin have got other fanouts. */
  ghost predicate OnlyBin(gates: Gates, gates': Gates, bin: Bin) {
    gates'.Keys == gates.Keys && forall g | g in gates && g !in bin :: gates'[g].fanouts == gates[g].fanouts
  }

  ghost predicate IsMerged(gates: Gates, l: Lists, levels: LevelMap, bin: Bin)
    requires bin != []
  {
    if bin[0] == l.one || bin[0] == l.zero then AllMerged(gates, bin[1..]) else MergedToLowest(gates, bin, levels)
  }

  ghost predicate AllMerged(gates: Gates, bin: Bin) {
    forall g | g in bin :: g in gates && gates[g].fanouts == []
  }

  /** All wires of the bin now come from one gate of the lowest level. */
  ghost predicate MergedToLowest(gates: Gates, bin: Bin, levels: LevelMap) {
    exists r :: r in bin && r in levels
      && forall g | g in bin && g != r :: g in gates && gates[g].fanouts == [] && g in levels && levels[r] <= levels[g]
  }

  lemma NothingTouched(gates: Gates, bin: Bin)
    ensures OnlyBin(gates, gates, bin)
  {
  }

  lemma OneMoreTouched(gates0: Gates, gates: Gates, gates': Gates, a: GateId, b: GateId, bin: Bin)
    requires OnlyBin(gates0, gates, bin) && a in gates && b in gates && a != b && IsReplaced(gates, gates', a, b)
    requires a in bin && b in bin
    ensures OnlyBin(gates0, gates', bin)
  {
    ReplacedKeys(gates, gates', a, b);
    hide IsReplaced;
    forall g | g in gates0 && g !in bin
      ensures gates'[g].fanouts == gates0[g].fanouts
    {
      assert ReplacedAt(gates, gates', a, b, g);
    }
  }

  /** Work on another bin leaves a merged bin merged. */
  lemma MergedStays(gates: Gates, gates': Gates, l: Lists, levels: LevelMap, bin: Bin, other: Bin)
    requires OnlyBin(gates, gates', other) && bin != [] && (forall g | g in bin :: g !in other)
    requires IsMerged(gates, l, levels, bin)
    ensures IsMerged(gates', l, levels, bin)
  {
    if bin[0] != l.one && bin[0] != l.zero {
      var r :| r in bin && r in levels
        && forall g | g in bin && g != r :: g in gates && gates[g].fanouts == [] && g in levels && levels[r] <= levels[g];
      assert MergedToLowest(gates', bin, levels);
    }
  }

  lemma StoreRefutation(before: Gates, l: Lists, bin: Bin, ms: seq<Interpretation>, m: Interpretation, a: GateId, b: GateId)
    requires bin != [] && b in bin && Separates(before, m, a, b) && (a in bin || bin[0] == l.one)
    ensures Refuted(before, l, bin, ms, ms + [m])
  {
    hide Separates;
  }

  lemma ListedAreAsked(gates: Gates, l: Lists, rank: GateId -> nat, a: GateId, b: GateId)
    requires ListsOk(gates, l) && Ranked(gates, rank) && a in l.listed && b in l.listed
    ensures Asked(gates, a, b)
  {
    hide IsBoolean, Ranked;
  }

  lemma Unsatisfiable(checker: Checker, gates: Gates, a: GateId, b: GateId)
    requires Sound(checker) && Asked(gates, a, b) && checker.findDifference(gates, a, b) == None
    ensures EqualGates(gates, a, b)
  {
    hide IsBoolean, EqualGates;
  }

  lemma NeverFound(checker: Checker, gates: Gates, g: GateId)
    requires Sound(checker) && Asked(gates, g, g) && checker.findValue(gates, g, true) == None
    ensures NeverHas(gates, g, true)
  {
    hide IsBoolean, NeverHas;
  }

  /** The stored interpretation has the inputs of the model. */
  lemma ModelSeparates(checker: Checker, gates: Gates, l: Lists, a: GateId, b: GateId, m: Interpretation)
    requires Sound(checker) && ListsOk(gates, l) && Asked(gates, a, b) && checker.findDifference(gates, a, b).Some?
    requires var model := checker.findDifference(gates, a, b).value;
             IsStart(gates, l, m) && forall g | g in l.inputs :: m[g] == if g in model then model[g] else true
    ensures Separates(gates, m, a, b)
  {
    hide IsBoolean, Consistent;
    var model := checker.findDifference(gates, a, b).value;
    forall v: Valuation | Consistent(gates, v) && AgreesWith(v, m)
      ensures v(a) != v(b)
    {
      assert HasInputs(gates, model, v);
    }
  }

  lemma ModelSeparatesFromZero(checker: Checker, gates: Gates, l: Lists, g: GateId, m: Interpretation)
    requires Sound(checker) && ListsOk(gates, l) && Asked(gates, g, g) && checker.findValue(gates, g, true).Some?
    requires var model := checker.findValue(gates, g, true).value;
             IsStart(gates, l, m) && forall h | h in l.inputs :: m[h] == if h in model then model[h] else true
    ensures Separates(gates, m, l.zero, g)
  {
    hide IsBoolean, Consistent;
    var model := checker.findValue(gates, g, true).value;
    forall v: Valuation | Consistent(gates, v) && AgreesWith(v, m)
      ensures v(l.zero) != v(g)
    {
      ConstantsHold(gates, l, v);
      assert HasInputs(gates, model, v);
    }
  }

  /** Circuits with the same meaning are told apart by the same inputs. */
  lemma SeparatesStays(gates: Gates, gates': Gates, m: Interpretation, a: GateId, b: GateId)
    requires Separates(gates, m, a, b) && IsBoolean(gates')
    requires SameMeaning(gates, gates') || SameMeaning(gates', gates)
    ensures Separates(gates', m, a, b)
  {
    hide IsBoolean, Consistent;
    forall v: Valuation | Consistent(gates', v) && AgreesWith(v, m)
      ensures v(a) != v(b)
    {
      assert Consistent(gates, v);
    }
  }

  lemma NoneMerged(gates: Gates, bin: Bin)
    requires bin == []
    ensures AllMerged(gates, bin)
  {
  }

  lemma OneMoreMerged(gates: Gates, gates': Gates, a: GateId, b: GateId, bin: Bin, low: nat, i: nat)
    requires a in gates && b in gates && a != b && IsReplaced(gates, gates', a, b)
    requires low <= i < |bin| && bin[i] == a && b !in bin[low..i] && AllMerged(gates, bin[low..i])
    ensures AllMerged(gates', bin[low..i + 1])
  {
    ReplacedKeys(gates, gates', a, b);
    assert bin[low..i + 1] == bin[low..i] + [a];
    hide IsReplaced;
    forall g | g in bin[low..i + 1]
      ensures g in gates' && gates'[g].fanouts == []
    {
      assert g in gates ==> ReplacedAt(gates, gates', a, b, g);
    }
  }

  lemma MergedElements(gates: Gates, a: Bin, b: Bin)
    requires AllMerged(gates, a) && forall g | g in b :: g in a
    ensures AllMerged(gates, b)
  {
  }

  lemma FirstIsLowest(gates: Gates, ordered: Bin, bin: Bin, levels: LevelMap)
    requires ordered != [] && Sorted(ordered, levels) && AllMerged(gates, ordered[1..])
    requires forall g :: g in bin <==> g in ordered
    ensures MergedToLowest(gates, bin, levels)
  {
    var r := ordered[0];
    assert r in bin && r in levels;
    forall g | g in bin && g != r
      ensures g in gates && gates[g].fanouts == [] && g in levels && levels[r] <= levels[g]
    {
      var i :| 0 <= i < |ordered| && ordered[i] == g;
      assert ordered[1..][i - 1] == g;
    }
  }

  lemma TailOfBin(l: Lists, bin: Bin, ordered: Bin)
    requires BinReady(l, bin) && multiset(ordered) == multiset(bin[1..])
    ensures forall g | g in ordered :: g in bin && g in l.listed && g != bin[0]
    ensures forall g :: g in bin[1..] <==> g in ordered
    ensures bin != []
  {
    SameElements(ordered, bin[1..]);
    forall g | g in ordered
      ensures g in bin && g in l.listed && g != bin[0]
    {
      var k :| 0 <= k < |bin| - 1 && bin[1..][k] == g;
      assert bin[k + 1] == g;
    }
  }

  lemma SweptAtFirst(gates: Gates, l: Lists, rank: GateId -> nat)
    requires ListsOk(gates, l) && Ranked(gates, rank)
    ensures Swept(gates, gates, l, rank)
  {
  }

  lemma SweptIsBoolean(before: Gates, gates: Gates, l: Lists, rank: GateId -> nat)
    requires Swept(before, gates, l, rank)
    ensures ListsOk(gates, l) && IsBoolean(gates) && Ranked(gates, rank) && IsBoolean(before) && SameMeaning(before, gates)
  {
  }

  lemma StillConsistent(before: Gates, gates: Gates, gates': Gates, l: Lists, rank: GateId -> nat, v: Valuation)
    requires Swept(before, gates, l, rank) && Swept(before, gates', l, rank) && Consistent(gates, v)
    ensures Consistent(gates', v)
  {
    hide Consistent, IsBoolean, Ranked;
    assert Consistent(before, v) <==> Consistent(gates, v);
    assert Consistent(before, v) <==> Consistent(gates', v);
  }

  lemma StartsStay(before: Gates, gates: Gates, gates': Gates, l: Lists, rank: GateId -> nat, ms: seq<Interpretation>)
    requires Swept(before, gates, l, rank) && Swept(before, gates', l, rank)
    requires forall m | m in ms :: IsStart(gates, l, m)
    ensures forall m | m in ms :: IsStart(gates', l, m)
  {
  }

  lemma ListedHaveLevels(l: Lists, levels: LevelMap, rank: GateId -> nat, bin: Bin)
    requires LevelsMatch(l, levels, rank)
    ensures forall g | g in bin && g in l.listed :: g in levels
  {
  }

  lemma LevelOfListed(l: Lists, levels: LevelMap, rank: GateId -> nat, g: GateId)
    requires LevelsMatch(l, levels, rank) && g in l.listed
    ensures g in levels && levels[g] == rank(g) && rank(l.zero) == 1 <= rank(g)
  {
  }

  lemma ZeroNotListed(gates: Gates, l: Lists)
    requires ListsOk(gates, l)
    ensures l.zero !in l.listed && l.one !in l.listed
  {
  }

  lemma EqualIsSymmetric(gates: Gates, a: GateId, b: GateId)
    requires IsBoolean(gates) && EqualGates(gates, a, b)
    ensures EqualGates(gates, b, a)
  {
  }

  // ----- the whole pass -----

  /** Outcome of a pass: same meaning, and the levels from before still bound all paths. */
  ghost predicate PassedWith(before: Gates, gates: Gates, l: Lists, levels: LevelMap, rank: GateId -> nat) {
    && Swept(before, gates, l, rank)
    && forall g | g in l.listed :: g in levels && IsDepth(before, g, levels[g]) && levels[g] == rank(g)
  }

  /** In both circuits every gate, and so every OUTPUT, has the same value under the same inputs. */
  lemma PassKeepsValues(before: Gates, gates: Gates, l: Lists, levels: LevelMap, rank: GateId -> nat,
                        v: Valuation, w: Valuation, g: GateId)
    requires PassedWith(before, gates, l, levels, rank) && g in before
    requires IsBoolean(before) && IsBoolean(gates)
    requires Consistent(before, v) && Consistent(gates, w) && SameInputs(before, v, w)
    ensures v(g) == w(g)
  {
    hide IsBoolean, Consistent, Ranked, IsDepth;
    SweptIsBoolean(before, gates, l, rank);
    assert Consistent(before, v) <==> Consistent(gates, v);
    SameInputsStay(before, gates, v, w);
    ValuationIsUnique(gates, rank, v, w, g);
  }

  lemma SameInputsStay(before: Gates, gates: Gates, v: Valuation, w: Valuation)
    requires IsBoolean(before) && IsBoolean(gates) && SameMeaning(before, gates) && SameInputs(before, v, w)
    ensures SameInputs(gates, v, w)
  {
    hide IsBoolean, Consistent;
  }

  /** No gate is deeper than the level recorded before the pass, and there is still no cycle. */
  lemma PassKeepsLevels(before: Gates, gates: Gates, l: Lists, levels: LevelMap, rank: GateId -> nat, g: GateId)
    requires PassedWith(before, gates, l, levels, rank) && g in l.listed
    ensures g in levels && !CycleReachable(gates, g)
    ensures forall p | StartsAt(gates, p, g) :: |p| <= levels[g] + 1
  {
    hide IsBoolean, IsDepth, SameMeaning;
    RankedHasNoCycle(gates, rank, g);
    forall p | StartsAt(gates, p, g)
      ensures |p| <= levels[g] + 1
    {
      RankBoundsPaths(gates, rank, p);
    }
  }

  lemma RankFromLevels(gates: Gates, l: Lists, levels: LevelMap) returns (rank: GateId -> nat)
    requires ListsOk(gates, l) && Searched(gates, l, levels)
    ensures Ranked(gates, rank) && LevelsMatch(l, levels, rank) && PassedWith(gates, gates, l, levels, rank)
  {
    hide IsBoolean, Searched, ListsOk, IsDepth;
    var top := TopExists(levels);
    rank := LevelOf(gates, l, levels, top);
    LevelsRise(gates, l, levels, top);
    ZeroIsLow(gates, l, levels, top);
    forall g | g in l.listed
      ensures g in levels && levels[g] == rank(g) && 1 <= rank(g) && IsDepth(gates, g, levels[g])
    {
      ListedLevel(gates, l, levels, top, g);
      SearchedGate(gates, l, levels, g);
    }
    ListsAreBoolean(gates, l);
    SweptAtFirst(gates, l, rank);
  }

  /** The gates of every bin agree under the inputs of the first round. */
  lemma BinsAgree(gates: Gates, l: Lists, rank: GateId -> nat, bins: seq<Bin>,
                  starts: seq<Interpretation>, sims: seq<Interpretation>, i: nat)
    requires ListsOk(gates, l) && CandidatesOk(gates, l, rank, bins, starts, sims) && starts != [] && i < |bins|
    requires IsBoolean(gates) && Ranked(gates, rank)
    ensures Consistent(gates, Meaning(gates, rank, starts[0])) && BinReady(l, bins[i])
    ensures forall g | g in bins[i] ::
              Meaning(gates, rank, starts[0])(g) == Meaning(gates, rank, starts[0])(bins[i][0])
  {
    hide CandidatesOk, IsBoolean, Ranked, Meaning, Consistent;
    FirstRound(gates, l, rank, bins, starts, sims);
    ConstantsInFront(gates, l, rank, bins, starts, sims, i);
    var front := bins[i][0];
    forall g | g in bins[i]
      ensures Meaning(gates, rank, starts[0])(g) == Meaning(gates, rank, starts[0])(front)
    {
      if g != front {
        InOneBin(bins, i, g, front);
        assert g in FirstBin(l);
        TogetherMeansSame(gates, l, rank, bins, starts, sims, g, front);
        assert Round(gates, rank, starts, 0)(g) == Round(gates, rank, starts, 0)(front);
      }
    }
  }

  lemma FirstRound(gates: Gates, l: Lists, rank: GateId -> nat, bins: seq<Bin>,
                   starts: seq<Interpretation>, sims: seq<Interpretation>)
    requires ListsOk(gates, l) && CandidatesOk(gates, l, rank, bins, starts, sims) && starts != []
    requires IsBoolean(gates) && Ranked(gates, rank)
    ensures Consistent(gates, Meaning(gates, rank, starts[0]))
  {
    hide IsPartition, IsBoolean, Ranked, Meaning, Consistent;
    assert SimOk(gates, l, rank, starts[0], sims[0]);
    ConstantValues(gates, l, rank, starts[0], sims[0]);
  }

  /** The bins of a pass with the simulations that made them, and the bins in which a counterexample was found. */
  datatype Run = Run(bins: seq<Bin>, starts: seq<Interpretation>, sims: seq<Interpretation>, refuted: set<nat>)

  /** The counterexample for the bin was stored; in ONE's bin there always is one, which separates nothing. */
  ghost predicate IsRefuted(before: Gates, l: Lists, stored: seq<Interpretation>, bin: Bin) {
    bin != [] && (bin[0] == l.one || exists m :: m in stored && SeparatesSome(before, m, bin))
  }

  /** What a pass has achieved after the given number of bins. */
  ghost predicate BinsDone(before: Gates, gates: Gates, l: Lists, levels: LevelMap, rank: GateId -> nat, run: Run,
                           stored: seq<Interpretation>, done: nat) {
    && done <= |run.bins| && CandidatesOk(before, l, rank, run.bins, run.starts, run.sims)
    && (forall i | i in run.refuted :: i < done)
    && forall i: nat | i < done :: BinDone(before, gates, l, levels, run, stored, i)
  }

  ghost predicate BinDone(before: Gates, gates: Gates, l: Lists, levels: LevelMap, run: Run, stored: seq<Interpretation>, i: nat)
    requires i < |run.bins|
  {
    var bin := run.bins[i];
    && bin != [] && (bin[0] == l.one ==> i in run.refuted)
    && if i in run.refuted then IsRefuted(before, l, stored, bin) else IsMerged(gates, l, levels, bin)
  }

  ghost function WithRefuted(run: Run, i: nat, isRefuted: bool): (run': Run) {
    if isRefuted then run.(refuted := run.refuted + {i}) else run
  }

  /** Among the first bins is one that is not ZERO's, or one with a counterexample. */
  ghost predicate Unsettled(l: Lists, run: Run, n: nat) {
    exists i: nat :: i < n && i < |run.bins| && UnsettledAt(l, run, i)
  }

  ghost predicate UnsettledAt(l: Lists, run: Run, i: nat)
    requires i < |run.bins|
  {
    run.bins[i] != [] && (run.bins[i][0] != l.zero || i in run.refuted)
  }

  lemma OneMoreUnsettled(before: Gates, gates: Gates, l: Lists, levels: LevelMap, rank: GateId -> nat, run: Run,
                         stored: seq<Interpretation>, i: nat, isRefuted: bool)
    requires BinsDone(before, gates, l, levels, rank, run, stored, i) && i < |run.bins| && run.bins[i] != []
    ensures var run' := WithRefuted(run, i, isRefuted);
            Unsettled(l, run', i + 1) <==> Unsettled(l, run, i) || run.bins[i][0] != l.zero || isRefuted
  {
    hide CandidatesOk, BinDone;
    var run' := WithRefuted(run, i, isRefuted);
    assert forall j: nat | j < i :: UnsettledAt(l, run', j) <==> UnsettledAt(l, run, j);
    assert UnsettledAt(l, run', i) <==> run.bins[i][0] != l.zero || isRefuted;
  }

  lemma OneMoreBin(before: Gates, gates: Gates, gates': Gates, l: Lists, levels: LevelMap, rank: GateId -> nat, run: Run,
                   stored: seq<Interpretation>, stored': seq<Interpretation>, i: nat)
    requires BinsDone(before, gates, l, levels, rank, run, stored, i) && i < |run.bins| && run.bins[i] != []
    requires OnlyBin(gates, gates', run.bins[i]) && Refuted(before, l, run.bins[i], stored, stored')
    requires stored' != stored || (IsMerged(gates', l, levels, run.bins[i]) && run.bins[i][0] != l.one)
    ensures BinsDone(before, gates', l, levels, rank, WithRefuted(run, i, stored' != stored), stored', i + 1)
  {
    hide IsPartition, SimsOk, OnlyBin, IsMerged, SeparatesSome, BinDone;
    var run' := WithRefuted(run, i, stored' != stored);
    forall j: nat | j < i + 1
      ensures BinDone(before, gates', l, levels, run', stored', j)
    {
      if j < i {
        forall g | g in run.bins[j]
          ensures g !in run.bins[i]
        {
          BinsAreDisjoint(run.bins, FirstBin(l), run.sims, Position(l), j, i, g);
        }
        DoneStays(before, gates, gates', l, levels, run, run', stored, stored', i, j);
      } else {
        ThisBinDone(before, gates', l, levels, run', stored, stored', i);
      }
    }
  }

  lemma DoneStays(before: Gates, gates: Gates, gates': Gates, l: Lists, levels: LevelMap, run: Run, run': Run,
                  stored: seq<Interpretation>, stored': seq<Interpretation>, i: nat, j: nat)
    requires j < i < |run.bins| && BinDone(before, gates, l, levels, run, stored, j) && stored <= stored'
    requires OnlyBin(gates, gates', run.bins[i]) && (forall g | g in run.bins[j] :: g !in run.bins[i])
    requires run'.bins == run.bins && (j in run'.refuted <==> j in run.refuted)
    ensures BinDone(before, gates', l, levels, run', stored', j)
  {
    hide OnlyBin, IsMerged, SeparatesSome;
    if j !in run.refuted {
      MergedStays(gates, gates', l, levels, run.bins[j], run.bins[i]);
    }
  }

  lemma ThisBinDone(before: Gates, gates: Gates, l: Lists, levels: LevelMap, run: Run,
                    stored: seq<Interpretation>, stored': seq<Interpretation>, i: nat)
    requires i < |run.bins| && run.bins[i] != [] && Refuted(before, l, run.bins[i], stored, stored')
    requires i in run.refuted <==> stored' != stored
    requires stored' != stored || (IsMerged(gates, l, levels, run.bins[i]) && run.bins[i][0] != l.one)
    ensures BinDone(before, gates, l, levels, run, stored', i)
  {
    hide IsMerged, SeparatesSome;
  }

  /** The inputs that separated two gates keep them apart in all later rounds. */
  lemma SeparatedGatesPart(gates: Gates, l: Lists, rank: GateId -> nat, bins: seq<Bin>, starts: seq<Interpretation>,
                           sims: seq<Interpretation>, m: Interpretation, a: GateId, b: GateId)
    requires ListsOk(gates, l) && CandidatesOk(gates, l, rank, bins, starts, sims) && m in starts
    requires Separates(gates, m, a, b) && a in FirstBin(l) && b in FirstBin(l) && a != b
    ensures !Together(bins, a, b)
  {
    hide IsBoolean, Ranked, Meaning, Together, IsPartition, Consistent, ListsOk;
    var i :| 0 <= i < |starts| && starts[i] == m;
    CandidatesRanked(gates, l, rank, bins, starts, sims);
    assert SimOk(gates, l, rank, starts[i], sims[i]);
    StartAgrees(gates, l, rank, m);
    TogetherMeansSame(gates, l, rank, bins, starts, sims, a, b);
    assert Round(gates, rank, starts, i) == Meaning(gates, rank, m);
  }

  lemma RoundHasOne(gates: Gates, l: Lists, rank: GateId -> nat, run: Run, i: nat)
    requires ListsOk(gates, l) && CandidatesOk(gates, l, rank, run.bins, run.starts, run.sims) && i < |run.starts|
    requires IsBoolean(gates) && Ranked(gates, rank)
    ensures Round(gates, rank, run.starts, i)(l.one) && Consistent(gates, Round(gates, rank, run.starts, i))
  {
    hide IsBoolean, Ranked, Meaning, IsPartition, Consistent;
    assert SimOk(gates, l, rank, run.starts[i], run.sims[i]);
    ConstantValues(gates, l, rank, run.starts[i], run.sims[i]);
  }

  /**
   The SAT part of one round of minimize. It fails exactly on circuits with a cycle below a listed
   gate. Otherwise the circuit keeps its meaning whatever the time limit, the random inputs and the
   counterexamples of the solver are.
   */
  method MinimizePass(circuit: SimpleCircuit, checker: Checker, clock: Clock, interpretations: seq<Interpretation>)
    returns (ok: bool, changed: bool, stored: seq<Interpretation>, ghost levels: LevelMap, ghost rank: GateId -> nat, ghost run: Run)
    requires Sound(checker) && ListsOk(circuit.gates, circuit.lists) && interpretations != []
    requires forall m | m in interpretations :: IsStart(circuit.gates, circuit.lists, m)
    modifies circuit, clock
    ensures !ok ==> circuit.gates == old(circuit.gates)
    ensures !ok ==> exists g :: g in circuit.lists.listed && CycleReachable(circuit.gates, g)
    ensures circuit.gates == old(circuit.gates) || PassedWith(old(circuit.gates), circuit.gates, circuit.lists, levels, rank)
    ensures ListsOk(circuit.gates, circuit.lists)
    ensures interpretations <= stored && forall m | m in stored :: IsStart(circuit.gates, circuit.lists, m)
    ensures ok && !clock.stopped ==>
              && PassedWith(old(circuit.gates), circuit.gates, circuit.lists, levels, rank)
              && interpretations <= run.starts <= stored && (changed <==> Unsettled(circuit.lists, run, |run.bins|))
              && BinsDone(old(circuit.gates), circuit.gates, circuit.lists, levels, rank, run, stored, |run.bins|)
  {
    hide Sound, ListsOk, IsBoolean, Ranked, Consistent, IsStart, PassedWith, CandidatesOk, Searched, LevelsMatch, Meaning;
    hide CycleReachable, LevelsOk, IsDepth, Swept, BinsDone, OnlyBin, IsMerged, Refuted;
    run := Run([], [], [], {});
    var l := circuit.lists;
    ghost var gates := circuit.gates;
    changed, stored := false, interpretations;
    levels, rank := map[], (g: GateId) => 0;
    var found, levelMap, _ := ComputeLevels(circuit.gates, l, false, clock);
    ok := found;
    if !ok { return; }
    var over := clock.Timeout();
    if over { return; }
    levels := levelMap;
    rank := RankFromLevels(gates, l, levelMap);
    ListsAreBoolean(gates, l);
    var bins, sims := CreateBins(circuit.gates, l, rank, interpretations, clock);
    over := clock.Timeout();
    if over { return; }
    ghost var starts;
    ghost var idle;
    bins, stored, sims, idle := DetermineStructuralRedundancy(circuit.gates, l, rank, bins, interpretations, clock,
                                                              interpretations, sims);
    starts := interpretations + stored[|interpretations|..];
    assert starts == stored;
    FirstRound(gates, l, rank, bins, starts, sims);
    var sweeper := new Sweeper(circuit, l, checker, clock, levelMap, rank, Meaning(gates, rank, starts[0]), stored);
    changed, run := sweeper.ProcessBins(bins, starts, sims);
    stored := sweeper.interpretations;
    PassEnds(gates, circuit.gates, l, levels, rank);
  }

  lemma NoBinDone(gates: Gates, l: Lists, levels: LevelMap, rank: GateId -> nat, run: Run, stored: seq<Interpretation>)
    requires CandidatesOk(gates, l, rank, run.bins, run.starts, run.sims) && run.refuted == {}
    ensures BinsDone(gates, gates, l, levels, rank, run, stored, 0)
  {
    hide CandidatesOk;
  }

  lemma PassEnds(before: Gates, gates: Gates, l: Lists, levels: LevelMap, rank: GateId -> nat)
    requires PassedWith(before, before, l, levels, rank) && Swept(before, gates, l, rank)
    ensures PassedWith(before, gates, l, levels, rank) && ListsOk(gates, l)
  {
  }
}
