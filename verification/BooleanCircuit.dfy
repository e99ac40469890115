/** The meaning of a Boolean gate graph, and what moving a gate's fanouts to another gate does to it. */
module BooleanCircuit {
  import opened GateGraph

  type Valuation = GateId -> bool

  function Arity(op: Op): (n: nat) {
    match op
    case INPUT | ONE | CONST => 0
    case NOT | OUTPUT => 1
    case _ => 2
  }

  /** The gate has the operation, pins and width of a gate of a Boolean circuit. */
  ghost predicate GateIsBoolean(gate: Gate) {
    && (gate.op.INPUT? || gate.op.OUTPUT? || gate.op.ONE? || gate.op.OR? || gate.op.AND? || gate.op.XOR? || gate.op.NOT?)
    && |gate.fanins| == Arity(gate.op) && gate.width == 1 && (gate.op.OUTPUT? ==> gate.fanouts == [])
  }

  ghost predicate IsBoolean(gates: Gates) {
    && Mirrored(gates)
    && forall g | g in gates :: GateIsBoolean(gates[g])
  }

  /** The gate's value is what its operation makes of the values of its fanins. */
  ghost predicate Holds(gate: Gate, g: GateId, v: Valuation)
    requires GateIsBoolean(gate)
  {
    match gate.op
    case ONE => v(g)
    case NOT => v(g) == !v(gate.fanins[0].gate)
    case OUTPUT => v(g) == v(gate.fanins[0].gate)
    case AND => v(g) == (v(gate.fanins[0].gate) && v(gate.fanins[1].gate))
    case OR => v(g) == (v(gate.fanins[0].gate) || v(gate.fanins[1].gate))
    case XOR => v(g) == (v(gate.fanins[0].gate) != v(gate.fanins[1].gate))
    case _ => true
  }

  /** v gives every wire of the circuit the value it has under the input values in v. */
  ghost predicate Consistent(gates: Gates, v: Valuation)
    requires IsBoolean(gates)
  {
    forall g | g in gates :: Holds(gates[g], g, v)
  }

  ghost predicate EqualGates(gates: Gates, a: GateId, b: GateId)
    requires IsBoolean(gates)
  {
    forall v: Valuation | Consistent(gates, v) :: v(a) == v(b)
  }

  lemma EqualIn(gates: Gates, a: GateId, b: GateId, v: Valuation)
    requires IsBoolean(gates) && EqualGates(gates, a, b) && Consistent(gates, v)
    ensures v(a) == v(b)
  {
  }

  /** Both circuits give the same gates the same values under all inputs. */
  ghost predicate SameMeaning(gates: Gates, gates': Gates)
    requires IsBoolean(gates) && IsBoolean(gates')
  {
    && gates'.Keys == gates.Keys && (forall g | g in gates :: gates'[g].op == gates[g].op)
    && forall v: Valuation :: Consistent(gates, v) <==> Consistent(gates', v)
  }

  lemma FaninOf(gates: Gates, rank: GateId -> nat, g: GateId, i: nat)
    requires Ranked(gates, rank) && g in gates && i < |gates[g].fanins|
    ensures var f := gates[g].fanins[i].gate; f in gates && rank(f) < rank(g)
  {
    var w := gates[g].fanins[i];
    assert w in gates[g].fanins;
  }

  // ----- one valuation for all input values -----

  /** The value of g by recursion along the wires. */
  ghost function Evaluate(gates: Gates, rank: GateId -> nat, inputs: Valuation, g: GateId): (b: bool)
    requires IsBoolean(gates) && Ranked(gates, rank) && g in gates
    decreases rank(g)
  {
    if gates[g].op.INPUT? then inputs(g)
    else if gates[g].op.ONE? then true
    else
      FaninOf(gates, rank, g, 0);
      var x := Evaluate(gates, rank, inputs, gates[g].fanins[0].gate);
      if gates[g].op.NOT? then !x
      else if gates[g].op.OUTPUT? then x
      else
        FaninOf(gates, rank, g, 1);
        var y := Evaluate(gates, rank, inputs, gates[g].fanins[1].gate);
        if gates[g].op.AND? then x && y
        else if gates[g].op.OR? then x || y
        else x != y
  }

  ghost function ValuationOf(gates: Gates, rank: GateId -> nat, inputs: Valuation): (v: Valuation)
    requires IsBoolean(gates) && Ranked(gates, rank)
  {
    (g: GateId) => if g in gates then Evaluate(gates, rank, inputs, g) else inputs(g)
  }

  lemma ValuationExists(gates: Gates, rank: GateId -> nat, inputs: Valuation)
    requires IsBoolean(gates) && Ranked(gates, rank)
    ensures Consistent(gates, ValuationOf(gates, rank, inputs))
    ensures forall g | g in gates && gates[g].op.INPUT? :: ValuationOf(gates, rank, inputs)(g) == inputs(g)
  {
    var v := ValuationOf(gates, rank, inputs);
    forall g | g in gates
      ensures Holds(gates[g], g, v)
    {
      if |gates[g].fanins| > 0 { FaninOf(gates, rank, g, 0); }
      if |gates[g].fanins| > 1 { FaninOf(gates, rank, g, 1); }
    }
  }

  ghost predicate SameInputs(gates: Gates, v: Valuation, v': Valuation) {
    forall g | g in gates && gates[g].op.INPUT? :: v(g) == v'(g)
  }

  lemma {:induction false} ValuationIsUnique(gates: Gates, rank: GateId -> nat, v: Valuation, v': Valuation, g: GateId)
    requires IsBoolean(gates) && Ranked(gates, rank) && g in gates
    requires Consistent(gates, v) && Consistent(gates, v') && SameInputs(gates, v, v')
    ensures v(g) == v'(g)
    decreases rank(g)
  {
    hide IsBoolean, Mirrored, Consistent, Ranked, SameInputs;
    GateOf(gates, v, g);
    GateOf(gates, v', g);
    if |gates[g].fanins| > 0 {
      FaninOf(gates, rank, g, 0);
      ValuationIsUnique(gates, rank, v, v', gates[g].fanins[0].gate);
    }
    if |gates[g].fanins| > 1 {
      FaninOf(gates, rank, g, 1);
      ValuationIsUnique(gates, rank, v, v', gates[g].fanins[1].gate);
    }
    if gates[g].op.INPUT? {
      InputOf(gates, v, v', g);
    }
  }

  lemma GateOf(gates: Gates, v: Valuation, g: GateId)
    requires IsBoolean(gates) && Consistent(gates, v) && g in gates
    ensures GateIsBoolean(gates[g]) && Holds(gates[g], g, v)
  {
  }

  lemma InputOf(gates: Gates, v: Valuation, v': Valuation, g: GateId)
    requires SameInputs(gates, v, v') && g in gates && gates[g].op.INPUT?
    ensures v(g) == v'(g)
  {
  }

  /** Consistency only looks at the gates of the circuit. */
  lemma SameOnGates(gates: Gates, v: Valuation, v': Valuation)
    requires IsBoolean(gates) && Consistent(gates, v) && forall g | g in gates :: v(g) == v'(g)
    ensures Consistent(gates, v')
  {
    hide Holds, Mirrored;
    forall g | g in gates
      ensures Holds(gates[g], g, v')
    {
      SameOnGate(gates, v, v', g);
    }
  }

  lemma SameOnGate(gates: Gates, v: Valuation, v': Valuation, g: GateId)
    requires IsBoolean(gates) && Consistent(gates, v) && (forall g | g in gates :: v(g) == v'(g)) && g in gates
    ensures Holds(gates[g], g, v')
  {
    GateOf(gates, v, g);
    if |gates[g].fanins| > 0 { assert FaninMirrored(gates, g, 0); }
    if |gates[g].fanins| > 1 { assert FaninMirrored(gates, g, 1); }
  }

  // ----- moving all fanouts of a to b -----

  function Redirect(w: Wire, a: GateId, b: GateId): (w': Wire) {
    if w.gate == a then Wire(b, w.pin) else w
  }

  function RedirectAll(ws: seq<Wire>, a: GateId, b: GateId): (ws': seq<Wire>) {
    seq(|ws|, i requires 0 <= i < |ws| => Redirect(ws[i], a, b))
  }

  ghost predicate IsReplaced(gates: Gates, gates': Gates, a: GateId, b: GateId)
    requires a in gates && b in gates && a != b
  {
    && gates'.Keys == gates.Keys
    && (forall g | g in gates :: ReplacedAt(gates, gates', a, b, g))
    && gates'[a].fanouts == [] && gates'[b].fanouts == gates[b].fanouts + gates[a].fanouts
  }

  /** Gate g after a's fanouts have moved to b. */
  ghost predicate ReplacedAt(gates: Gates, gates': Gates, a: GateId, b: GateId, g: GateId)
    requires g in gates && g in gates'
  {
    && gates'[g].op == gates[g].op && gates'[g].width == gates[g].width && gates'[g].value == gates[g].value
    && gates'[g].fanins == RedirectAll(gates[g].fanins, a, b)
    && (g != a && g != b ==> gates'[g].fanouts == gates[g].fanouts)
  }

  lemma ReplacedMirrorsFanins(gates: Gates, gates': Gates, a: GateId, b: GateId, g: GateId, i: nat)
    requires Mirrored(gates) && a in gates && b in gates && a != b && IsReplaced(gates, gates', a, b)
    requires g in gates && i < |gates'[g].fanins|
    ensures FaninMirrored(gates', g, i)
  {
    assert ReplacedAt(gates, gates', a, b, g);
    assert FaninMirrored(gates, g, i);
    var w := gates[g].fanins[i];
    assert ReplacedAt(gates, gates', a, b, w.gate);
  }

  lemma ReplacedMirrorsFanouts(gates: Gates, gates': Gates, a: GateId, b: GateId, g: GateId, i: nat)
    requires Mirrored(gates) && a in gates && b in gates && a != b && IsReplaced(gates, gates', a, b)
    requires g in gates && i < |gates'[g].fanouts|
    ensures FanoutMirrored(gates', g, i)
  {
    assert ReplacedAt(gates, gates', a, b, g);
    if g == b && i >= |gates[b].fanouts| {
      assert FanoutMirrored(gates, a, i - |gates[b].fanouts|);
    } else {
      assert FanoutMirrored(gates, g, i);
    }
    var f := gates'[g].fanouts[i];
    assert ReplacedAt(gates, gates', a, b, f.target.gate);
  }

  lemma ReplacedHasNoDuplicates(gates: Gates, gates': Gates, a: GateId, b: GateId, g: GateId)
    requires Mirrored(gates) && a in gates && b in gates && a != b && IsReplaced(gates, gates', a, b) && g in gates
    ensures NoDuplicates(gates'[g].fanouts)
  {
    assert ReplacedAt(gates, gates', a, b, g);
    assert NoDuplicates(gates[g].fanouts);
    if g == b {
      assert NoDuplicates(gates[a].fanouts);
      forall i, j | 0 <= i < |gates[b].fanouts| && 0 <= j < |gates[a].fanouts|
        ensures gates[b].fanouts[i] != gates[a].fanouts[j]
      {
        assert FanoutMirrored(gates, b, i) && FanoutMirrored(gates, a, j);
      }
    }
  }

  lemma ReplacedIsMirrored(gates: Gates, gates': Gates, a: GateId, b: GateId)
    requires Mirrored(gates) && a in gates && b in gates && a != b && IsReplaced(gates, gates', a, b)
    ensures Mirrored(gates')
  {
    hide IsReplaced, FaninMirrored, FanoutMirrored, NoDuplicates;
    assert gates'.Keys == gates.Keys by {
      ReplacedKeys(gates, gates', a, b);
    }
    forall g, i: nat | g in gates' && i < |gates'[g].fanins|
      ensures FaninMirrored(gates', g, i)
    {
      ReplacedMirrorsFanins(gates, gates', a, b, g, i);
    }
    forall g, i: nat | g in gates' && i < |gates'[g].fanouts|
      ensures FanoutMirrored(gates', g, i)
    {
      ReplacedMirrorsFanouts(gates, gates', a, b, g, i);
    }
    forall g | g in gates'
      ensures NoDuplicates(gates'[g].fanouts)
    {
      ReplacedHasNoDuplicates(gates, gates', a, b, g);
    }
  }

  lemma ReplacedKeys(gates: Gates, gates': Gates, a: GateId, b: GateId)
    requires a in gates && b in gates && a != b && IsReplaced(gates, gates', a, b)
    ensures gates'.Keys == gates.Keys && forall g | g in gates :: ReplacedAt(gates, gates', a, b, g)
    ensures gates'[a].fanouts == []
  {
  }

  lemma ReplacedIsBoolean(gates: Gates, gates': Gates, a: GateId, b: GateId)
    requires IsBoolean(gates) && a in gates && b in gates && a != b && IsReplaced(gates, gates', a, b)
    requires gates[b].op != OUTPUT
    ensures IsBoolean(gates')
  {
    hide Mirrored, IsReplaced;
    ReplacedIsMirrored(gates, gates', a, b);
    ReplacedKeys(gates, gates', a, b);
    forall g | g in gates'
      ensures GateIsBoolean(gates'[g])
    {
      assert ReplacedAt(gates, gates', a, b, g);
    }
  }

  /** A numbering along the wires survives if b is not above a. */
  lemma ReplacedIsRanked(gates: Gates, gates': Gates, a: GateId, b: GateId, rank: GateId -> nat)
    requires Ranked(gates, rank) && a in gates && b in gates && a != b && IsReplaced(gates, gates', a, b)
    requires rank(b) <= rank(a)
    ensures Ranked(gates', rank)
  {
    hide IsReplaced;
    ReplacedKeys(gates, gates', a, b);
    forall g, w | g in gates' && w in gates'[g].fanins
      ensures w.gate in gates' && rank(w.gate) < rank(g)
    {
      assert ReplacedAt(gates, gates', a, b, g);
      var i :| 0 <= i < |gates'[g].fanins| && gates'[g].fanins[i] == w;
      FaninOf(gates, rank, g, i);
    }
  }

  lemma ReplacedHolds(gates: Gates, gates': Gates, a: GateId, b: GateId, v: Valuation, g: GateId)
    requires g in gates && g in gates' && ReplacedAt(gates, gates', a, b, g)
    requires GateIsBoolean(gates[g]) && GateIsBoolean(gates'[g]) && v(a) == v(b)
    ensures Holds(gates[g], g, v) <==> Holds(gates'[g], g, v)
  {
  }

  /** A valuation in which a and b agree does not notice. */
  lemma ReplacedConsistent(gates: Gates, gates': Gates, a: GateId, b: GateId, v: Valuation)
    requires IsBoolean(gates) && a in gates && b in gates && a != b && IsReplaced(gates, gates', a, b)
    requires IsBoolean(gates') && v(a) == v(b)
    ensures Consistent(gates, v) <==> Consistent(gates', v)
  {
    hide IsReplaced, Holds, Mirrored, ReplacedAt;
    ReplacedKeys(gates, gates', a, b);
    forall g | g in gates
      ensures Holds(gates[g], g, v) <==> Holds(gates'[g], g, v)
    {
      ReplacedHolds(gates, gates', a, b, v, g);
    }
  }

  /** Replacing a gate by an equal one that is not above it changes no value under any input. */
  lemma MergeKeepsMeaning(gates: Gates, gates': Gates, a: GateId, b: GateId, rank: GateId -> nat)
    requires IsBoolean(gates) && Ranked(gates, rank) && a in gates && b in gates && a != b
    requires IsReplaced(gates, gates', a, b) && EqualGates(gates, a, b) && rank(b) <= rank(a)
    requires gates[b].op != OUTPUT
    ensures IsBoolean(gates') && Ranked(gates', rank) && SameMeaning(gates, gates')
  {
    hide IsReplaced, Holds, Mirrored, IsBoolean, Ranked, Consistent;
    ReplacedKeys(gates, gates', a, b);
    ReplacedIsBoolean(gates, gates', a, b);
    ReplacedIsRanked(gates, gates', a, b, rank);
    forall v: Valuation
      ensures Consistent(gates, v) <==> Consistent(gates', v)
    {
      if Consistent(gates, v) {
        EqualIn(gates, a, b, v);
        ReplacedConsistent(gates, gates', a, b, v);
      }
      if Consistent(gates', v) {
        MergeAddsNothing(gates, gates', a, b, rank, v);
      }
    }
  }

  lemma MergeAddsNothing(gates: Gates, gates': Gates, a: GateId, b: GateId, rank: GateId -> nat, v: Valuation)
    requires IsBoolean(gates) && Ranked(gates, rank) && a in gates && b in gates && a != b
    requires IsReplaced(gates, gates', a, b) && EqualGates(gates, a, b)
    requires IsBoolean(gates') && Ranked(gates', rank) && Consistent(gates', v)
    ensures Consistent(gates, v)
  {
    hide IsReplaced, Holds, Mirrored, IsBoolean, Ranked, Consistent, ValuationOf;
    ReplacedKeys(gates, gates', a, b);
    var v' := ValuationOf(gates, rank, v);
    ValuationExists(gates, rank, v);
    EqualIn(gates, a, b, v');
    ReplacedConsistent(gates, gates', a, b, v');
    forall g | g in gates
      ensures v'(g) == v(g)
    {
      ValuationIsUnique(gates', rank, v', v, g);
    }
    SameOnGates(gates, v', v);
  }

  lemma SameMeaningTransitive(gates: Gates, gates': Gates, gates'': Gates)
    requires IsBoolean(gates) && IsBoolean(gates') && IsBoolean(gates'')
    requires SameMeaning(gates, gates') && SameMeaning(gates', gates'')
    ensures SameMeaning(gates, gates'')
  {
    hide Consistent, IsBoolean;
    forall v: Valuation
      ensures Consistent(gates, v) <==> Consistent(gates'', v)
    {
      assert Consistent(gates, v) <==> Consistent(gates', v);
    }
  }
}
