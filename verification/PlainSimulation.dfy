/** simulate: the plaintext meaning of a mixed Boolean and arithmetic circuit. */
module PlainSimulation {
  import opened Basics
  import opened Powers
  import opened Shifts
  import opened Words
  import opened GateGraph

  /** A circuit whose arithmetic gates have one width, a numbering along its wires, and its input values. */
  datatype Plain = Plain(gates: Gates, rank: GateId -> nat, inputs: map<GateId, nat>, width: nat)

  // ----- well-typed circuits -----

  predicate IsBoolOp(op: Op) { op == NOT || op == AND || op == OR || op == XOR || op == ONE }

  predicate IsArithOp(op: Op) { op == ADD || op == SUB || op == MUL || op == NEG || op == CONST || op == COMBINE }

  /** The endpoint carries a bit. */
  predicate IsBitPin(gates: Gates, width: nat, w: Wire) {
    && w.gate in gates
    && var g := gates[w.gate];
       || (IsBoolOp(g.op) && w.pin == 0) || (g.op == INPUT && g.width == 1 && w.pin == 0)
       || (g.op == SPLIT && w.pin < width)
  }

  /** The endpoint carries a number of the common width. */
  predicate IsNumberPin(gates: Gates, width: nat, w: Wire) {
    && w.gate in gates && w.pin == 0
    && var g := gates[w.gate]; IsArithOp(g.op) || (g.op == INPUT && g.width == width)
  }

  ghost predicate AllBits(gates: Gates, width: nat, ws: seq<Wire>) { forall w | w in ws :: IsBitPin(gates, width, w) }

  ghost predicate AllNumbers(gates: Gates, width: nat, ws: seq<Wire>) { forall w | w in ws :: IsNumberPin(gates, width, w) }

  ghost predicate GateTyped(gates: Gates, width: nat, g: GateId)
    requires g in gates
  {
    var a := gates[g];
    && |a.fanins| == FaninCount(a.op, a.width)
    && match a.op
       case NOT | AND | OR | XOR | ONE => a.width == 1 && AllBits(gates, width, a.fanins)
       case ADD | SUB | MUL | NEG => a.width == width && AllNumbers(gates, width, a.fanins)
       case CONST => a.width == width && a.value < Pow2(width)
       case COMBINE => a.width == width && AllBits(gates, width, a.fanins)
       case SPLIT => a.width == 1 && AllNumbers(gates, width, a.fanins)
       case INPUT => a.width == 1 || a.width == width
       case OUTPUT => AllBits(gates, width, a.fanins) || AllNumbers(gates, width, a.fanins)
  }

  ghost predicate InputTyped(p: Plain, g: GateId)
    requires g in p.gates
  {
    p.gates[g].op == INPUT ==> g in p.inputs && p.inputs[g] < Pow2(p.gates[g].width)
  }

  ghost predicate PlainOk(p: Plain) {
    && 1 < p.width <= 64 && Ranked(p.gates, p.rank)
    && forall g | g in p.gates :: GateTyped(p.gates, p.width, g) && InputTyped(p, g)
  }

  // ----- values -----

  ghost function SubMod(a: nat, b: nat, w: nat): (d: nat) {
    if b <= Pow2(w) then Low(Difference(a, b, w), w) else 0
  }

  /** The value at a pin of a gate whose fanins have the values xs. */
  ghost function GateValue(gate: Gate, input: nat, xs: seq<nat>, pin: nat): (v: nat)
    requires |xs| == FaninCount(gate.op, gate.width)
  {
    match gate.op
    case INPUT => input
    case OUTPUT => xs[0]
    case ONE => 1
    case CONST => gate.value
    case NOT => if xs[0] == 0 then 1 else 0
    case AND => if xs[0] == 1 && xs[1] == 1 then 1 else 0
    case OR => if xs[0] == 1 || xs[1] == 1 then 1 else 0
    case XOR => if xs[0] != xs[1] then 1 else 0
    case ADD => Low(xs[0] + xs[1], gate.width)
    case SUB => SubMod(xs[0], xs[1], gate.width)
    case MUL => Low(xs[0] * xs[1], gate.width)
    case NEG => SubMod(0, xs[0], gate.width)
    case COMBINE => Compose(xs)
    case SPLIT => Shr(xs[0], pin) % 2
  }

  ghost function InputOf(p: Plain, g: GateId): (v: nat) { if g in p.inputs then p.inputs[g] else 0 }

  lemma PlainFanin(p: Plain, g: GateId, i: nat)
    requires PlainOk(p) && g in p.gates && i < |p.gates[g].fanins|
    ensures p.gates[g].fanins[i].gate in p.gates && p.rank(p.gates[g].fanins[i].gate) < p.rank(g)
  {
    assert p.gates[g].fanins[i] in p.gates[g].fanins;
  }

  lemma GateIsTyped(p: Plain, g: GateId)
    requires PlainOk(p) && g in p.gates
    ensures GateTyped(p.gates, p.width, g) && InputTyped(p, g) && 1 < p.width <= 64
  {
  }

  /** The value at an endpoint, by recursion along the wires. */
  ghost function Value(p: Plain, w: Wire): (v: nat)
    requires PlainOk(p) && w.gate in p.gates
    decreases p.rank(w.gate), 0
  {
    GateIsTyped(p, w.gate);
    GateValue(p.gates[w.gate], InputOf(p, w.gate), FaninValues(p, w.gate, |p.gates[w.gate].fanins|), w.pin)
  }

  /** The values of the first n fanins. */
  ghost function FaninValues(p: Plain, g: GateId, n: nat): (xs: seq<nat>)
    requires PlainOk(p) && g in p.gates && n <= |p.gates[g].fanins|
    ensures |xs| == n
    decreases p.rank(g), 0, n
  {
    if n == 0 then []
    else
      PlainFanin(p, g, n - 1);
      FaninValues(p, g, n - 1) + [Value(p, p.gates[g].fanins[n - 1])]
  }

  lemma {:induction false} FaninValueAt(p: Plain, g: GateId, n: nat, i: nat)
    requires PlainOk(p) && g in p.gates && i < n <= |p.gates[g].fanins|
    ensures p.gates[g].fanins[i].gate in p.gates && FaninValues(p, g, n)[i] == Value(p, p.gates[g].fanins[i])
    decreases n
  {
    hide Value, PlainOk;
    PlainFanin(p, g, n - 1);
    if i < n - 1 {
      FaninValueAt(p, g, n - 1, i);
    }
  }

  lemma BitValue(p: Plain, w: Wire)
    requires PlainOk(p) && IsBitPin(p.gates, p.width, w)
    ensures Value(p, w) <= 1
  {
    hide FaninValues, AllBits, AllNumbers;
    GateIsTyped(p, w.gate);
    assert Pow2(1) == 2;
  }

  lemma NumberValue(p: Plain, w: Wire)
    requires PlainOk(p) && IsNumberPin(p.gates, p.width, w)
    ensures Value(p, w) < Pow2(p.width)
  {
    GateIsTyped(p, w.gate);
    var g := p.gates[w.gate];
    var xs := FaninValues(p, w.gate, |g.fanins|);
    if g.op == COMBINE {
      CombineOperands(p, w.gate);
      ComposeBelow(xs);
    } else {
      NumberResult(g, InputOf(p, w.gate), xs, w.pin, p.width);
    }
  }

  lemma NumberResult(g: Gate, input: nat, xs: seq<nat>, pin: nat, width: nat)
    requires |xs| == FaninCount(g.op, g.width) && g.width == width
    requires g.op == INPUT ==> input < Pow2(width)
    requires g.op != COMBINE && (IsArithOp(g.op) || g.op == INPUT) && (g.op == CONST ==> g.value < Pow2(width))
    ensures GateValue(g, input, xs, pin) < Pow2(width)
  {
    LowBelow(0, width);
    match g.op
    case ADD => LowBelow(xs[0] + xs[1], width);
    case MUL => LowBelow(xs[0] * xs[1], width);
    case SUB => if xs[1] <= Pow2(width) { LowBelow(Difference(xs[0], xs[1], width), width); }
    case NEG => if xs[0] <= Pow2(width) { LowBelow(Difference(0, xs[0], width), width); }
    case _ =>
  }

  lemma CombineOperands(p: Plain, g: GateId)
    requires PlainOk(p) && g in p.gates && p.gates[g].op == COMBINE
    ensures forall b | b in FaninValues(p, g, |p.gates[g].fanins|) :: b <= 1
  {
    hide Value, FaninValues;
    GateIsTyped(p, g);
    var n := |p.gates[g].fanins|;
    forall i: nat | i < n
      ensures FaninValues(p, g, n)[i] <= 1
    {
      FaninValueAt(p, g, n, i);
      BitValue(p, p.gates[g].fanins[i]);
    }
  }

  // ----- topological_traversal -----

  /** The fanins of each gate come before it. */
  ghost predicate InOrder(gates: Gates, order: seq<GateId>) {
    && (forall i | 0 <= i < |order| :: order[i] in gates && FaninsIn(gates, order[..i], order[i]))
    && forall i, j | 0 <= i < j < |order| :: order[i] != order[j]
  }

  ghost predicate FaninsIn(gates: Gates, done: seq<GateId>, g: GateId) {
    g in gates && forall w | w in gates[g].fanins :: w.gate in done
  }

  lemma OneMoreInOrder(gates: Gates, order: seq<GateId>, g: GateId)
    requires InOrder(gates, order) && FaninsIn(gates, order, g) && g !in order
    ensures InOrder(gates, order + [g])
  {
    var longer := order + [g];
    forall i | 0 <= i < |longer|
      ensures longer[i] in gates && FaninsIn(gates, longer[..i], longer[i])
    {
      if i < |order| {
        assert longer[..i] == order[..i];
      } else {
        assert longer[..i] == order;
      }
    }
  }

  lemma RankedFanin(gates: Gates, rank: GateId -> nat, g: GateId, i: nat)
    requires Ranked(gates, rank) && g in gates && i < |gates[g].fanins|
    ensures gates[g].fanins[i].gate in gates && rank(gates[g].fanins[i].gate) < rank(g)
  {
    assert gates[g].fanins[i] in gates[g].fanins;
  }

  datatype Mark = Temporary | Permanent

  class Traversal {
    const gates: Gates
    ghost const rank: GateId -> nat
    var marks: map<GateId, Mark>
    var order: seq<GateId>

    constructor (gates: Gates, ghost rank: GateId -> nat)
      requires Ranked(gates, rank)
      ensures Valid({}) && this.gates == gates && this.rank == rank && order == []
    {
      this.gates := gates;
      this.rank := rank;
      marks := map[];
      order := [];
    }

    /** Permanent marks are on the gates of the order, temporary ones on the gates being visited. */
    ghost predicate Valid(visiting: set<GateId>)
      reads this
    {
      && Ranked(gates, rank) && InOrder(gates, order)
      && (forall g :: g in order <==> g in marks && marks[g] == Permanent)
      && (forall g :: g in visiting <==> g in marks && marks[g] == Temporary)
    }

    /** On an acyclic circuit no temporary mark is met. */
    method Visit(g: GateId, ghost visiting: set<GateId>)
      requires Valid(visiting) && g in gates && forall h | h in visiting :: rank(g) < rank(h)
      modifies this`marks, this`order
      ensures Valid(visiting) && g in order && old(order) <= order
      decreases rank(g), 1
    {
      hide InOrder, Ranked, FaninsIn;
      if g in marks {
        assert marks[g] == Permanent;
        return;
      }
      marks := marks[g := Temporary];
      VisitFanins(g, visiting + {g});
      OneMoreInOrder(gates, order, g);
      order := order + [g];
      marks := marks[g := Permanent];
    }

    method VisitFanins(g: GateId, ghost visiting: set<GateId>)
      requires Valid(visiting) && g in gates && forall h | h in visiting :: rank(g) <= rank(h)
      modifies this`marks, this`order
      ensures Valid(visiting) && FaninsIn(gates, order, g) && old(order) <= order
      decreases rank(g), 0
    {
      hide InOrder, Ranked;
      var fanins := gates[g].fanins;
      for i := 0 to |fanins|
        invariant Valid(visiting) && old(order) <= order
        invariant forall k | 0 <= k < i :: fanins[k].gate in order
      {
        RankedFanin(gates, rank, g, i);
        Visit(fanins[i].gate, visiting);
      }
    }

    method VisitAll(outputs: seq<GateId>)
      requires Valid({}) && forall o | o in outputs :: o in gates
      modifies this`marks, this`order
      ensures Valid({}) && forall o | o in outputs :: o in order
    {
      for i := 0 to |outputs|
        invariant Valid({}) && forall o | o in outputs[..i] :: o in order
      {
        Visit(outputs[i], {});
      }
      assert outputs[..|outputs|] == outputs;
    }
  }

  // ----- simulate -----

  type Values = map<Wire, nat>

  ghost predicate HasPin(p: Plain, g: GateId, pin: nat)
    requires g in p.gates
  {
    if p.gates[g].op == SPLIT then pin < p.width else pin == 0
  }

  ghost predicate PinDone(p: Plain, values: Values, g: GateId, pin: nat)
    requires PlainOk(p) && g in p.gates
  {
    Wire(g, pin) in values && values[Wire(g, pin)] == Value(p, Wire(g, pin))
  }

  ghost predicate GateDone(p: Plain, values: Values, g: GateId)
    requires PlainOk(p) && g in p.gates
  {
    forall pin: nat | HasPin(p, g, pin) :: PinDone(p, values, g, pin)
  }

  ghost predicate AllDone(p: Plain, values: Values, order: seq<GateId>)
    requires PlainOk(p) && forall g | g in order :: g in p.gates
  {
    forall g | g in order :: GateDone(p, values, g)
  }

  ghost predicate FaninsDone(p: Plain, values: Values, g: GateId)
    requires PlainOk(p) && g in p.gates
  {
    forall i: nat | i < |p.gates[g].fanins| :: FaninDone(p, values, g, i)
  }

  ghost predicate FaninDone(p: Plain, values: Values, g: GateId, i: nat)
    requires PlainOk(p) && g in p.gates && i < |p.gates[g].fanins|
  {
    var w := p.gates[g].fanins[i];
    w in values && values[w] == FaninValues(p, g, |p.gates[g].fanins|)[i]
  }

  lemma PinOfWire(p: Plain, g: GateId, i: nat)
    requires PlainOk(p) && g in p.gates && i < |p.gates[g].fanins|
    ensures var w := p.gates[g].fanins[i];
            w.gate in p.gates && HasPin(p, w.gate, w.pin)
            && (IsBitPin(p.gates, p.width, w) || IsNumberPin(p.gates, p.width, w))
  {
    GateIsTyped(p, g);
    assert p.gates[g].fanins[i] in p.gates[g].fanins;
  }

  lemma FaninsAreDone(p: Plain, values: Values, order: seq<GateId>, g: GateId)
    requires PlainOk(p) && (forall h | h in order :: h in p.gates) && AllDone(p, values, order)
    requires FaninsIn(p.gates, order, g)
    ensures FaninsDone(p, values, g)
  {
    hide PlainOk, Value, FaninValues, HasPin;
    var n := |p.gates[g].fanins|;
    forall i: nat | i < n
      ensures FaninDone(p, values, g, i)
    {
      var w := p.gates[g].fanins[i];
      assert w in p.gates[g].fanins;
      PinOfWire(p, g, i);
      assert GateDone(p, values, w.gate);
      assert PinDone(p, values, w.gate, w.pin);
      FaninValueAt(p, g, n, i);
    }
  }

  /** The pins of g have the values that its operation makes of xs. */
  ghost predicate HasResult(p: Plain, values: Values, g: GateId, xs: seq<nat>)
    requires g in p.gates && |xs| == FaninCount(p.gates[g].op, p.gates[g].width)
  {
    forall pin: nat | HasPin(p, g, pin) ::
      Wire(g, pin) in values && values[Wire(g, pin)] == GateValue(p.gates[g], InputOf(p, g), xs, pin)
  }

  lemma ResultIsDone(p: Plain, values: Values, g: GateId, xs: seq<nat>)
    requires PlainOk(p) && g in p.gates && xs == FaninValues(p, g, |p.gates[g].fanins|)
    requires |xs| == FaninCount(p.gates[g].op, p.gates[g].width) && HasResult(p, values, g, xs)
    ensures GateDone(p, values, g)
  {
    hide FaninValues, GateTyped;
    forall pin: nat | HasPin(p, g, pin)
      ensures PinDone(p, values, g, pin)
    {
      assert Value(p, Wire(g, pin)) == GateValue(p.gates[g], InputOf(p, g), xs, pin);
    }
  }

  /** Operands of Boolean operations are bits, those of arithmetic ones have the common width. */
  ghost predicate OperandTyped(op: Op, width: nat, x: nat) {
    match op
    case NOT | AND | OR | XOR | COMBINE => x <= 1
    case ADD | SUB | MUL | NEG | SPLIT => x < Pow2(width)
    case _ => true
  }

  lemma OneOperand(p: Plain, g: GateId, i: nat)
    requires PlainOk(p) && g in p.gates && i < |p.gates[g].fanins|
    ensures OperandTyped(p.gates[g].op, p.width, FaninValues(p, g, |p.gates[g].fanins|)[i])
  {
    hide FaninValues, Value;
    GateIsTyped(p, g);
    var w := p.gates[g].fanins[i];
    assert w in p.gates[g].fanins;
    FaninValueAt(p, g, |p.gates[g].fanins|, i);
    hide PlainOk;
    if IsBitPin(p.gates, p.width, w) { BitValue(p, w); }
    if IsNumberPin(p.gates, p.width, w) { NumberValue(p, w); }
  }

  lemma SplitOperand(p: Plain, g: GateId)
    requires PlainOk(p) && g in p.gates && p.gates[g].op == SPLIT
    ensures |p.gates[g].fanins| == 1
    ensures var f := p.gates[g].fanins[0].gate; f in p.gates && p.gates[f].width == p.width
  {
    hide PlainOk, Pow2, AllBits;
    GateIsTyped(p, g);
    assert p.gates[g].fanins[0] in p.gates[g].fanins;
    GateIsTyped(p, p.gates[g].fanins[0].gate);
  }

  lemma GateShape(p: Plain, g: GateId)
    requires PlainOk(p) && g in p.gates
    ensures |p.gates[g].fanins| == FaninCount(p.gates[g].op, p.gates[g].width)
    ensures IsArithOp(p.gates[g].op) ==> p.gates[g].width == p.width
    ensures 1 < p.width <= 64 && Pow2(p.width) <= WORD
    ensures p.gates[g].op == SPLIT ==>
              var f := p.gates[g].fanins[0].gate; f in p.gates && p.gates[f].width == p.width
    ensures p.gates[g].op == INPUT ==> g in p.inputs
  {
    hide PlainOk, Pow2, AllBits;
    GateIsTyped(p, g);
    WordFromWidth(p.width);
    if p.gates[g].op == SPLIT {
      SplitOperand(p, g);
    }
  }

  /** The loop of the COMBINE case: bit i is shifted to its place and or-ed in. */
  method CombineBits(fanins: seq<Wire>, values: Values, ghost xs: seq<nat>) returns (value: nat)
    requires |xs| == |fanins|
    requires forall i: nat | i < |fanins| :: fanins[i] in values && values[fanins[i]] == xs[i] && xs[i] <= 1
    ensures value == Compose(xs)
  {
    value := 0;
    for i := 0 to |fanins|
      invariant value == Compose(xs[..i])
    {
      ComposeBelow(xs[..i]);
      OrAbove(value, xs[i], i);
      assert xs[..i + 1][..i] == xs[..i];
      value := BitOr(value, Shl(values[fanins[i]], i));
    }
    assert xs[..|fanins|] == xs;
  }

  /** The loop of the SPLIT case. */
  method SplitNumber(g: GateId, value: nat, width: nat, values: Values) returns (values': Values)
    ensures forall i: nat | i < width :: Wire(g, i) in values' && values'[Wire(g, i)] == Shr(value, i) % 2
    ensures forall w | w in values && w.gate != g :: w in values' && values'[w] == values[w]
  {
    values' := values;
    for i := 0 to width
      invariant forall k: nat | k < i :: Wire(g, k) in values' && values'[Wire(g, k)] == Shr(value, k) % 2
      invariant forall w | w in values && w.gate != g :: w in values' && values'[w] == values[w]
    {
      LastBit(Shr(value, i));
      values' := values'[Wire(g, i) := BitAnd(Shr(value, i), 1)];
    }
  }

  /** simulate, for one gate */
  method SimulateGate(gates: Gates, inputs: map<GateId, nat>, values: Values, g: GateId, ghost p: Plain)
    returns (values': Values)
    requires PlainOk(p) && p.gates == gates && p.inputs == inputs && g in gates && FaninsDone(p, values, g)
    ensures GateDone(p, values', g)
    ensures forall w | w in values && w.gate != g :: w in values' && values'[w] == values[w]
  {
    hide PlainOk, Value, Pow2;
    var fanins := gates[g].fanins;
    ghost var xs := FaninValues(p, g, |fanins|);
    GateShape(p, g);
    forall i: nat | i < |fanins|
      ensures fanins[i] in values && values[fanins[i]] == xs[i] && OperandTyped(gates[g].op, p.width, xs[i])
    {
      assert FaninDone(p, values, g, i);
      OneOperand(p, g, i);
    }
    hide FaninsDone;
    values' := EvaluateGate(gates, inputs, values, g, xs, p);
    ResultIsDone(p, values', g, xs);
  }

  method EvaluateGate(gates: Gates, inputs: map<GateId, nat>, values: Values, g: GateId, ghost xs: seq<nat>, ghost p: Plain)
    returns (values': Values)
    requires p.gates == gates && p.inputs == inputs && g in gates
    requires |gates[g].fanins| == |xs| == FaninCount(gates[g].op, gates[g].width)
    requires forall i: nat | i < |xs| :: OperandTyped(gates[g].op, p.width, xs[i])
    requires forall i: nat | i < |xs| :: gates[g].fanins[i] in values && values[gates[g].fanins[i]] == xs[i]
    requires IsArithOp(gates[g].op) ==> gates[g].width == p.width
    requires 1 < p.width <= 64 && Pow2(p.width) <= WORD
    requires gates[g].op == SPLIT ==>
               gates[g].fanins[0].gate in gates && gates[gates[g].fanins[0].gate].width == p.width
    requires gates[g].op == INPUT ==> g in inputs
    ensures HasResult(p, values', g, xs)
    ensures forall w | w in values && w.gate != g :: w in values' && values'[w] == values[w]
  {
    hide Pow2, Compose, BitAnd, BitOr, BitXor, Low, Shr, ClearUnusedBits;
    var fanins := gates[g].fanins;
    var out := Wire(g, 0);
    var width := gates[g].width;
    match gates[g].op
    case NOT =>
      values' := values[out := if values[fanins[0]] == 0 then 1 else 0];
    case AND =>
      BitsOfOperators(xs[0], xs[1]);
      values' := values[out := BitAnd(values[fanins[0]], values[fanins[1]])];
    case OR =>
      BitsOfOperators(xs[0], xs[1]);
      values' := values[out := BitOr(values[fanins[0]], values[fanins[1]])];
    case XOR =>
      BitsOfOperators(xs[0], xs[1]);
      values' := values[out := BitXor(values[fanins[0]], values[fanins[1]])];
    case NEG =>
      SubIsModular(0, xs[0], width);
      values' := values[out := ClearUnusedBits(Sub64(0, values[fanins[0]]), width)];
    case ADD =>
      AddIsModular(xs[0], xs[1], width);
      values' := values[out := ClearUnusedBits(Add64(values[fanins[0]], values[fanins[1]]), width)];
    case SUB =>
      SubIsModular(xs[0], xs[1], width);
      values' := values[out := ClearUnusedBits(Sub64(values[fanins[0]], values[fanins[1]]), width)];
    case MUL =>
      MulIsModular(xs[0], xs[1], width);
      values' := values[out := ClearUnusedBits(Mul64(values[fanins[0]], values[fanins[1]]), width)];
    case COMBINE =>
      var value := CombineBits(fanins, values, xs);
      values' := values[out := value];
    case SPLIT =>
      values' := SplitNumber(g, values[fanins[0]], gates[fanins[0].gate].width, values);
    case ONE =>
      values' := values[out := 1];
    case CONST =>
      values' := values[out := gates[g].value];
    case INPUT =>
      values' := values[out := inputs[g]];
    case OUTPUT =>
      values' := values[out := values[fanins[0]]];
  }

  lemma DoneStays(p: Plain, values: Values, values': Values, order: seq<GateId>, g: GateId)
    requires PlainOk(p) && (forall h | h in order :: h in p.gates) && AllDone(p, values, order) && g !in order
    requires forall w | w in values && w.gate != g :: w in values' && values'[w] == values[w]
    ensures AllDone(p, values', order)
  {
    hide PlainOk, Value, HasPin;
    forall h | h in order
      ensures GateDone(p, values', h)
    {
      assert GateDone(p, values, h);
      forall pin: nat | HasPin(p, h, pin)
        ensures PinDone(p, values', h, pin)
      {
        assert PinDone(p, values, h, pin);
      }
    }
  }

  /** simulate, on a topological order of the gates: every endpoint gets its value. */
  method Simulate(gates: Gates, inputs: map<GateId, nat>, order: seq<GateId>, ghost p: Plain) returns (values: Values)
    requires PlainOk(p) && p.gates == gates && p.inputs == inputs && InOrder(gates, order)
    ensures AllDone(p, values, order)
  {
    hide PlainOk, Value;
    values := map[];
    for i := 0 to |order|
      invariant AllDone(p, values, order[..i])
    {
      var g := order[i];
      assert g in gates && FaninsIn(gates, order[..i], g) && g !in order[..i];
      FaninsAreDone(p, values, order[..i], g);
      var next := SimulateGate(gates, inputs, values, g, p);
      DoneStays(p, values, next, order[..i], g);
      assert order[..i + 1] == order[..i] + [g];
      values := next;
    }
    assert order[..|order|] == order;
  }
}
