/** When the balanced tree is right, and a circuit for which it is not. */
module CascadeOutcome {
  import opened GateGraph
  import opened BooleanCircuit
  import opened Simulation
  import opened Rewiring
  import opened Structurize

  /** The gate where the walk stopped never matters. */
  ghost predicate MakesNoDifference(gates: Gates, op: Op, list: seq<GateId>, act: GateId)
    requires IsBoolean(gates) && IsCascadeOp(op)
  {
    forall v: Valuation | Consistent(gates, v) ::
      Combine(op, Fold(op, ValuesOf(v, list)), v(act)) == Fold(op, ValuesOf(v, list))
  }

  /** The tree is right exactly if the walk found all operands, or the gate it left out never matters in the circuit before. */
  lemma TreeIsRight(before: Gates, grown: Gates, after: Gates, rank0: GateId -> nat, rank: GateId -> nat, op: Op, g: GateId,
                    list: seq<GateId>, complete: bool, act: GateId, root: GateId)
    requires IsBoolean(before) && IsCascadeOp(op) && g in before && act in before && (forall x | x in list :: x in before)
    requires Collected(before, op, g, list, complete, act) && Balanced(before, grown, after, op, g, list, root)
    requires Ranked(before, rank0) && Ranked(grown, rank)
    ensures EqualGates(grown, g, root) <==> complete || MakesNoDifference(before, op, list, act)
  {
    hide IsBoolean, Grown, Consistent, IsReplaced, Fold, ValuesOf, Ranked;
    if complete || MakesNoDifference(before, op, list, act) {
      forall v: Valuation | Consistent(grown, v)
        ensures v(g) == v(root)
      {
        GrownConsistent(before, grown, v);
      }
    }
    if EqualGates(grown, g, root) && !complete {
      forall v: Valuation | Consistent(before, v)
        ensures Combine(op, Fold(op, ValuesOf(v, list)), v(act)) == Fold(op, ValuesOf(v, list))
      {
        var w := Continued(before, grown, rank0, rank, v);
        SameList(before, v, w, list);
        assert w(g) == w(root) && w(act) == v(act) && w(g) == v(g);
      }
    }
  }

  /** A valuation of the circuit before goes on to the new gates. */
  lemma Continued(before: Gates, grown: Gates, rank0: GateId -> nat, rank: GateId -> nat, v: Valuation) returns (w: Valuation)
    requires IsBoolean(before) && IsBoolean(grown) && Grown(before, grown) && Ranked(before, rank0) && Ranked(grown, rank)
    requires Consistent(before, v)
    ensures Consistent(grown, w) && Consistent(before, w) && forall x | x in before :: w(x) == v(x)
  {
    w := ValuationOf(grown, rank, v);
    ValuationExists(grown, rank, v);
    hide ValuationOf, IsBoolean, Consistent, Ranked;
    GrownConsistent(before, grown, w);
    assert forall x | x in before :: SameGate(before[x], grown[x]);
    assert SameInputs(before, v, w);
    forall x | x in before
      ensures w(x) == v(x)
    {
      ValuationIsUnique(before, rank0, v, w, x);
    }
  }

  lemma SameList(before: Gates, v: Valuation, w: Valuation, list: seq<GateId>)
    requires (forall x | x in before :: w(x) == v(x)) && forall x | x in list :: x in before
    ensures ValuesOf(v, list) == ValuesOf(w, list)
  {
  }

  // ----- a circuit -----

  /**
   g = a1 AND (a2 AND (a3 AND (a4 AND h))) with h = b AND b, where h has another fanout. The gates are
   ONE 1, ZERO 2, a1 to a4 3 to 6, b 7, h 8, the cascade 9 to 12 and two OUTPUTs.
   */
  function SharedAt(g: GateId): (gate: Gate) {
    match g
    case 1 => Gate(ONE, 1, 0, [], [Fanout(0, Wire(2, 0))])
    case 2 => Gate(NOT, 1, 0, [Wire(1, 0)], [])
    case 3 => Gate(INPUT, 1, 0, [], [Fanout(0, Wire(12, 0))])
    case 4 => Gate(INPUT, 1, 0, [], [Fanout(0, Wire(11, 0))])
    case 5 => Gate(INPUT, 1, 0, [], [Fanout(0, Wire(10, 0))])
    case 6 => Gate(INPUT, 1, 0, [], [Fanout(0, Wire(9, 0))])
    case 7 => Gate(INPUT, 1, 0, [], [Fanout(0, Wire(8, 0)), Fanout(0, Wire(8, 1))])
    case 8 => Gate(AND, 1, 0, [Wire(7, 0), Wire(7, 0)], [Fanout(0, Wire(9, 1)), Fanout(0, Wire(14, 0))])
    case 9 => Gate(AND, 1, 0, [Wire(6, 0), Wire(8, 0)], [Fanout(0, Wire(10, 1))])
    case 10 => Gate(AND, 1, 0, [Wire(5, 0), Wire(9, 0)], [Fanout(0, Wire(11, 1))])
    case 11 => Gate(AND, 1, 0, [Wire(4, 0), Wire(10, 0)], [Fanout(0, Wire(12, 1))])
    case 12 => Gate(AND, 1, 0, [Wire(3, 0), Wire(11, 0)], [Fanout(0, Wire(13, 0))])
    case 13 => Gate(OUTPUT, 1, 0, [Wire(12, 0)], [])
    case _ => Gate(OUTPUT, 1, 0, [Wire(8, 0)], [])
  }

  const SHARED: Gates := map g: GateId | 1 <= g <= 14 :: SharedAt(g)

  const SHARED_LISTS: Lists := Lists(1, 2, [3, 4, 5, 6, 7], [8, 9, 10, 11, 12])

  ghost function Numbered(g: GateId): (n: nat) { g }

  lemma SharedKeys(g: GateId)
    ensures g in SHARED <==> 1 <= g <= 14
    ensures g in SHARED ==> SHARED[g] == SharedAt(g)
  {
  }

  lemma SharedShape(g: GateId)
    requires 1 <= g <= 14
    ensures GateIsBoolean(SharedAt(g)) && NoDuplicates(SharedAt(g).fanouts)
    ensures forall w | w in SharedAt(g).fanins :: 1 <= w.gate < g
  {
  }

  lemma SharedFanin(g: GateId, i: nat)
    requires 1 <= g <= 14 && i < |SharedAt(g).fanins|
    ensures g in SHARED && SHARED[g] == SharedAt(g) && FaninMirrored(SHARED, g, i)
  {
    var w := SharedAt(g).fanins[i];
    SharedKeys(g);
    SharedKeys(w.gate);
    hide SHARED;
    assert 1 <= w.gate <= 14;
    var fanouts := SharedAt(w.gate).fanouts;
    assert fanouts[if |fanouts| == 1 || fanouts[0] == Fanout(0, Wire(g, i)) then 0 else 1] == Fanout(0, Wire(g, i));
  }

  lemma SharedFanout(g: GateId, i: nat)
    requires 1 <= g <= 14 && i < |SharedAt(g).fanouts|
    ensures g in SHARED && SHARED[g] == SharedAt(g) && FanoutMirrored(SHARED, g, i)
  {
    SharedKeys(g);
    SharedKeys(SharedAt(g).fanouts[i].target.gate);
    hide SHARED;
  }

  lemma SharedIsBoolean()
    ensures IsBoolean(SHARED) && Ranked(SHARED, Numbered) && ConstantsOk(SHARED, SHARED_LISTS)
  {
    forall g | g in SHARED
      ensures SHARED[g] == SharedAt(g) && 1 <= g <= 14 && GateIsBoolean(SHARED[g]) && NoDuplicates(SHARED[g].fanouts)
      ensures forall w | w in SHARED[g].fanins :: 1 <= w.gate < g
    {
      SharedKeys(g);
      SharedShape(g);
    }
    forall g: GateId | 1 <= g <= 14
      ensures g in SHARED
    {
      SharedKeys(g);
    }
    assert SharedAt(1).op == ONE && SharedAt(2).op == NOT && SharedAt(2).fanins[0].gate == 1;
    hide SHARED, SharedAt, FaninMirrored, FanoutMirrored, NoDuplicates, GateIsBoolean;
    forall g, i: nat | g in SHARED && i < |SHARED[g].fanins|
      ensures FaninMirrored(SHARED, g, i)
    {
      SharedFanin(g, i);
    }
    forall g, i: nat | g in SHARED && i < |SHARED[g].fanouts|
      ensures FanoutMirrored(SHARED, g, i)
    {
      SharedFanout(g, i);
    }
  }

  lemma SharedNumbers()
    ensures forall g: GateId | 1 <= g <= 14 :: g in SHARED && SHARED[g] == SharedAt(g)
  {
  }

  /** The walk from gate 12 stops at h. */
  lemma SharedWalk()
    ensures IsBoolean(SHARED) && Ranked(SHARED, Numbered)
    ensures Walk(SHARED, Numbered, AND, 12) == Cascade([3, 4, 5, 6], false, 8)
  {
    SharedIsBoolean();
    SharedNumbers();
    hide IsBoolean, Ranked, SHARED;
    assert Walk(SHARED, Numbered, AND, 8) == Cascade([], false, 8);
    assert Walk(SHARED, Numbered, AND, 9) == Cascade([6], false, 8);
    assert Walk(SHARED, Numbered, AND, 10) == Cascade([5, 6], false, 8);
    assert Walk(SHARED, Numbered, AND, 11) == Cascade([4, 5, 6], false, 8);
  }

  /** With a1 to a4 true and b false the operands are all true, but h and g are false. */
  lemma SharedMatters() returns (v: Valuation)
    ensures IsBoolean(SHARED) && Consistent(SHARED, v)
    ensures Fold(AND, ValuesOf(v, [3, 4, 5, 6])) && !v(8) && !v(12)
  {
    SharedIsBoolean();
    v := (g: GateId) => g == 1 || 3 <= g <= 6;
    forall g | g in SHARED
      ensures Holds(SHARED[g], g, v)
    {
      SharedKeys(g);
      SharedShape(g);
      SharedHolds(g, v);
    }
    hide SHARED, SharedAt;
    var list: seq<GateId> := [3, 4, 5, 6];
    assert ValuesOf(v, list) == [true, true, true, true];
    AllTrue([true, true, true, true]);
  }

  lemma SharedHolds(g: GateId, v: Valuation)
    requires 1 <= g <= 14 && GateIsBoolean(SharedAt(g)) && forall x: GateId :: v(x) <==> x == 1 || 3 <= x <= 6
    ensures Holds(SharedAt(g), g, v)
  {
  }

  lemma {:induction false} AllTrue(xs: seq<bool>)
    requires forall i | 0 <= i < |xs| :: xs[i]
    ensures Fold(AND, xs)
    decreases |xs|
  {
    if xs != [] {
      AllTrue(xs[..|xs| - 1]);
    }
  }

  /** structural_minimize on this circuit: it goes through, and afterwards the circuit means something else. */
  method StructurizeShared() returns (circuit: SimpleCircuit, changed: bool, ghost grown: Gates)
    ensures changed && IsBoolean(grown) && IsBoolean(circuit.gates) && Grown(SHARED, grown)
    ensures circuit.gates.Keys == grown.Keys && !SameMeaning(grown, circuit.gates)
  {
    hide IsBoolean, Ranked, ConstantsOk, Walk, Consistent, SameMeaning, Collected, SingleFanouts, IsReplaced, Grown, DepthAtMost, IsOperandDepth, EqualGates, Balanced;
    SharedIsBoolean();
    SharedNumbers();
    SharedWalk();
    circuit := new SimpleCircuit(SHARED, SHARED_LISTS);
    var structurizer := new Structurizer(circuit, 15, Numbered);
    ghost var list, complete, act, root, d;
    assert SharedAt(12).op == AND;
    hide SHARED, SharedAt;
    changed, list, complete, act, root, grown, d := structurizer.StructuralMinimize(12, AND);
    WrongAfterwards(grown, circuit.gates, structurizer.rank, root);
  }

  /** The OUTPUT that read gate 12 now reads the root, which has another value. */
  lemma WrongAfterwards(grown: Gates, after: Gates, rank: GateId -> nat, root: GateId)
    requires IsBoolean(SHARED) && Balanced(SHARED, grown, after, AND, 12, [3, 4, 5, 6], root) && Ranked(grown, rank)
    ensures IsBoolean(grown) && IsBoolean(after) && Grown(SHARED, grown) && after.Keys == grown.Keys
    ensures !SameMeaning(grown, after)
  {
    SharedIsBoolean();
    SharedNumbers();
    assert SharedAt(13).fanins == [Wire(12, 0)] && SharedAt(13).op == OUTPUT;
    hide SHARED, SharedAt, Ranked, IsBoolean, Consistent, Fold, IsReplaced, SameMeaning;
    var v := SharedMatters();
    var list: seq<GateId> := [3, 4, 5, 6];
    ListInside(list);
    var w := DifferenceShows(SHARED, grown, after, Numbered, rank, AND, 12, list, root, v);
    GateIsKept(SHARED, grown, 13);
    BalancedKeys(grown, after, root);
    OutputMoved(grown, after, 12, root, 13, w);
  }

  lemma ListInside(list: seq<GateId>)
    requires list == [3, 4, 5, 6]
    ensures forall x | x in list :: x in SHARED
  {
    SharedNumbers();
    hide SHARED, SharedAt;
  }

  lemma GateIsKept(gates: Gates, grown: Gates, g: GateId)
    requires Grown(gates, grown) && g in gates
    ensures g in grown && SameGate(gates[g], grown[g])
  {
  }

  /** Where the operands fold to another value than g has, the tree has another value, too. */
  lemma DifferenceShows(before: Gates, grown: Gates, after: Gates, rank0: GateId -> nat, rank: GateId -> nat, op: Op, g: GateId,
                        list: seq<GateId>, root: GateId, v: Valuation)
    returns (w: Valuation)
    requires IsBoolean(before) && g in before && (forall x | x in list :: x in before)
    requires Balanced(before, grown, after, op, g, list, root) && Ranked(before, rank0) && Ranked(grown, rank)
    requires Consistent(before, v) && v(g) != Fold(op, ValuesOf(v, list))
    ensures Consistent(grown, w) && w(g) != w(root) && forall x | x in before :: w(x) == v(x)
  {
    hide IsBoolean, Grown, Consistent, IsReplaced, Fold, ValuesOf, Ranked;
    w := Continued(before, grown, rank0, rank, v);
    SameList(before, v, w, list);
  }

  lemma BalancedKeys(grown: Gates, after: Gates, root: GateId)
    requires 12 in grown && root in grown && root != 12 && IsReplaced(grown, after, 12, root)
    ensures after.Keys == grown.Keys
  {
  }

  lemma OutputMoved(grown: Gates, after: Gates, g: GateId, root: GateId, o: GateId, w: Valuation)
    requires g in grown && root in grown && g != root && IsReplaced(grown, after, g, root) && IsBoolean(grown) && IsBoolean(after)
    requires o in grown && grown[o].op == OUTPUT && grown[o].fanins == [Wire(g, 0)]
    requires Consistent(grown, w) && w(g) != w(root)
    ensures !SameMeaning(grown, after)
  {
    assert ReplacedAt(grown, after, g, root, o);
    assert Holds(grown[o], o, w);
    assert after[o].fanins[0] == Wire(root, 0);
    assert !Holds(after[o], o, w);
  }
}
