/** What the values of the plain simulation are, in terms of the integers: each operation by its law. */
module PlainLaws {
  import opened Powers
  import opened Shifts
  import opened Words
  import opened GateGraph
  import opened PlainSimulation

  /** The value that operand i of the gate has. */
  ghost function Operand(p: Plain, g: GateId, i: nat): (x: nat)
    requires PlainOk(p) && g in p.gates && i < |p.gates[g].fanins|
  {
    PlainFanin(p, g, i);
    Value(p, p.gates[g].fanins[i])
  }

  lemma ValueFromOperands(p: Plain, g: GateId, pin: nat) returns (xs: seq<nat>)
    requires PlainOk(p) && g in p.gates
    ensures |xs| == |p.gates[g].fanins| == FaninCount(p.gates[g].op, p.gates[g].width)
    ensures Value(p, Wire(g, pin)) == GateValue(p.gates[g], InputOf(p, g), xs, pin)
    ensures forall i: nat | i < |xs| :: xs[i] == Operand(p, g, i)
  {
    GateIsTyped(p, g);
    xs := FaninValues(p, g, |p.gates[g].fanins|);
    hide PlainOk, GateTyped, InputTyped;
    forall i: nat | i < |xs|
      ensures xs[i] == Operand(p, g, i)
    {
      hide Value;
      FaninValueAt(p, g, |xs|, i);
    }
  }

  lemma OperandIsBit(p: Plain, g: GateId, i: nat)
    requires PlainOk(p) && g in p.gates && i < |p.gates[g].fanins|
    requires IsBoolOp(p.gates[g].op) || p.gates[g].op == COMBINE
    ensures Operand(p, g, i) <= 1
  {
    hide PlainOk, Value;
    GateIsTyped(p, g);
    assert p.gates[g].fanins[i] in p.gates[g].fanins;
    BitValue(p, p.gates[g].fanins[i]);
  }

  lemma OperandIsNumber(p: Plain, g: GateId, i: nat)
    requires PlainOk(p) && g in p.gates && i < |p.gates[g].fanins|
    requires p.gates[g].op == ADD || p.gates[g].op == SUB || p.gates[g].op == MUL || p.gates[g].op == NEG || p.gates[g].op == SPLIT
    ensures Operand(p, g, i) < Pow2(p.width)
  {
    hide PlainOk, Value, Pow2;
    GateIsTyped(p, g);
    assert p.gates[g].fanins[i] in p.gates[g].fanins;
    NumberValue(p, p.gates[g].fanins[i]);
  }

  // ----- arithmetic -----

  /** Adding what was subtracted gives the first operand back. */
  lemma SubtractionIsUndone(a: nat, b: nat, w: nat)
    requires a < Pow2(w) && b < Pow2(w)
    ensures SubMod(a, b, w) < Pow2(w) && (SubMod(a, b, w) + b) % Pow2(w) == a
  {
    hide Pow2;
    ShrIsQuotient(Difference(a, b, w), w);
    var p := Pow2(w);
    if b <= a {
      DivUnique(a + p - b, p, 1, a - b);
    } else {
      DivUnique(a + p - b, p, 0, a + p - b);
      DivUnique(a + p, p, 1, a);
    }
    assert Difference(a, b, w) == a + p - b;
    if b <= a {
      DivUnique(a, p, 0, a);
    }
  }

  lemma LowIsRemainder(m: nat, w: nat)
    ensures Low(m, w) == m % Pow2(w) && Low(m, w) < Pow2(w)
  {
    ShrIsQuotient(m, w);
  }

  /** The value of a gate with two operands. */
  lemma TwoOperands(p: Plain, g: GateId)
    requires PlainOk(p) && g in p.gates && FaninCount(p.gates[g].op, p.gates[g].width) == 2
    ensures |p.gates[g].fanins| == 2
    ensures Value(p, Wire(g, 0)) == GateValue(p.gates[g], InputOf(p, g), [Operand(p, g, 0), Operand(p, g, 1)], 0)
  {
    var xs := ValueFromOperands(p, g, 0);
    hide PlainOk, Value, GateValue, Operand;
    assert xs == [Operand(p, g, 0), Operand(p, g, 1)];
  }

  lemma AdditionLaw(p: Plain, g: GateId)
    requires PlainOk(p) && g in p.gates && p.gates[g].op == ADD
    ensures |p.gates[g].fanins| == 2
    ensures Value(p, Wire(g, 0)) == (Operand(p, g, 0) + Operand(p, g, 1)) % Pow2(p.width)
  {
    TwoOperands(p, g);
    WidthOfNumber(p, g);
    hide PlainOk, Value, Operand, Pow2, Low;
    LowIsRemainder(Operand(p, g, 0) + Operand(p, g, 1), p.width);
  }

  lemma MultiplicationLaw(p: Plain, g: GateId)
    requires PlainOk(p) && g in p.gates && p.gates[g].op == MUL
    ensures |p.gates[g].fanins| == 2
    ensures Value(p, Wire(g, 0)) == (Operand(p, g, 0) * Operand(p, g, 1)) % Pow2(p.width)
  {
    TwoOperands(p, g);
    WidthOfNumber(p, g);
    hide PlainOk, Value, Operand, Pow2, Low;
    LowIsRemainder(Operand(p, g, 0) * Operand(p, g, 1), p.width);
  }

  /** A difference is what adds up to the first operand. */
  lemma SubtractionLaw(p: Plain, g: GateId)
    requires PlainOk(p) && g in p.gates && p.gates[g].op == SUB
    ensures |p.gates[g].fanins| == 2 && Value(p, Wire(g, 0)) < Pow2(p.width)
    ensures (Value(p, Wire(g, 0)) + Operand(p, g, 1)) % Pow2(p.width) == Operand(p, g, 0)
  {
    TwoOperands(p, g);
    WidthOfNumber(p, g);
    OperandIsNumber(p, g, 0);
    OperandIsNumber(p, g, 1);
    hide PlainOk, Value, Operand, Pow2, SubMod;
    SubtractionIsUndone(Operand(p, g, 0), Operand(p, g, 1), p.width);
  }

  lemma WidthOfNumber(p: Plain, g: GateId)
    requires PlainOk(p) && g in p.gates && IsArithOp(p.gates[g].op)
    ensures p.gates[g].width == p.width && |p.gates[g].fanins| == FaninCount(p.gates[g].op, p.width)
  {
    hide PlainOk, AllNumbers, AllBits, Pow2;
    GateIsTyped(p, g);
  }

  /** The negative of a number is what adds up to 0. */
  lemma NegationLaw(p: Plain, g: GateId)
    requires PlainOk(p) && g in p.gates && p.gates[g].op == NEG
    ensures |p.gates[g].fanins| == 1
    ensures var x, v := Operand(p, g, 0), Value(p, Wire(g, 0));
            x < Pow2(p.width) && v < Pow2(p.width) && (v + x) % Pow2(p.width) == 0
  {
    var xs := ValueFromOperands(p, g, 0);
    WidthOfNumber(p, g);
    OperandIsNumber(p, g, 0);
    hide PlainOk, Value, Pow2, Operand, SubMod;
    SubtractionIsUndone(0, xs[0], p.width);
  }

  // ----- bits -----

  /** The Boolean operations as arithmetic on bits. */
  lemma BooleanLaws(p: Plain, g: GateId)
    requires PlainOk(p) && g in p.gates && (p.gates[g].op == AND || p.gates[g].op == OR || p.gates[g].op == XOR)
    ensures |p.gates[g].fanins| == 2
    ensures var x, y, v := Operand(p, g, 0), Operand(p, g, 1), Value(p, Wire(g, 0));
            && x <= 1 && y <= 1
            && (p.gates[g].op == AND ==> v == x * y)
            && (p.gates[g].op == OR ==> v == x + y - x * y)
            && (p.gates[g].op == XOR ==> v == (x + y) % 2)
  {
    TwoOperands(p, g);
    OperandIsBit(p, g, 0);
    OperandIsBit(p, g, 1);
    hide PlainOk, Value, Operand;
    BitProducts(Operand(p, g, 0), Operand(p, g, 1));
  }

  lemma BitProducts(x: nat, y: nat)
    requires x <= 1 && y <= 1
    ensures x * y == if x == 1 && y == 1 then 1 else 0
  {
  }

  lemma NotLaw(p: Plain, g: GateId)
    requires PlainOk(p) && g in p.gates && p.gates[g].op == NOT
    ensures |p.gates[g].fanins| == 1 && Operand(p, g, 0) <= 1 && Value(p, Wire(g, 0)) == 1 - Operand(p, g, 0)
  {
    var xs := ValueFromOperands(p, g, 0);
    OperandIsBit(p, g, 0);
    hide PlainOk, Value, Operand;
  }

  lemma {:induction false} BitOfCompose(bits: seq<nat>, i: nat)
    requires (forall b | b in bits :: b <= 1) && i < |bits|
    ensures Shr(Compose(bits), i) % 2 == bits[i]
    decreases |bits|
  {
    hide Shr, Shl;
    var n := |bits| - 1;
    var front, last := bits[..n], bits[n];
    forall b | b in front
      ensures b <= 1
    {
      assert b in bits;
    }
    ComposeBelow(front);
    assert bits[n] in bits;
    if i == n {
      ShrOfSum(Compose(front), last, n);
      ShrOfSmall(Compose(front), n);
    } else {
      BitOfCompose(front, i);
      ShlShl(last, n - i, i);
      ShrOfSum(Compose(front), Shl(last, n - i), i);
      ShlIsEven(last, n - i);
    }
  }

  lemma ShlIsEven(m: nat, k: nat)
    requires 0 < k
    ensures Shl(m, k) % 2 == 0
  {
  }

  /** Bit i of a combined number is operand i. */
  lemma CombineLaw(p: Plain, g: GateId, i: nat)
    requires PlainOk(p) && g in p.gates && p.gates[g].op == COMBINE && i < p.width
    ensures |p.gates[g].fanins| == p.width
    ensures var v := Value(p, Wire(g, 0)); v < Pow2(p.width) && v / Pow2(i) % 2 == Operand(p, g, i)
  {
    var xs := ValueFromOperands(p, g, 0);
    WidthOfNumber(p, g);
    forall b | b in xs
      ensures b <= 1
    {
      var k: nat :| k < |xs| && xs[k] == b;
      OperandIsBit(p, g, k);
    }
    hide PlainOk, Value, Operand, Compose, Shr;
    ComposeBelow(xs);
    BitOfCompose(xs, i);
    ShrIsQuotient(Compose(xs), i);
  }

  /** Pin i of a SPLIT is bit i of its operand. */
  lemma SplitLaw(p: Plain, g: GateId, i: nat)
    requires PlainOk(p) && g in p.gates && p.gates[g].op == SPLIT
    ensures |p.gates[g].fanins| == 1 && Value(p, Wire(g, i)) == Operand(p, g, 0) / Pow2(i) % 2
  {
    var xs := ValueFromOperands(p, g, i);
    hide PlainOk, Value, Operand, Shr;
    ShrIsQuotient(xs[0], i);
  }

  /** Taking a combined number apart gives the bits back. */
  lemma SplitUndoesCombine(p: Plain, g: GateId, f: GateId, i: nat)
    requires PlainOk(p) && g in p.gates && p.gates[g].op == SPLIT && i < p.width
    requires f in p.gates && p.gates[f].op == COMBINE && p.gates[g].fanins == [Wire(f, 0)]
    ensures |p.gates[f].fanins| == p.width && Value(p, Wire(g, i)) == Operand(p, f, i)
  {
    SplitLaw(p, g, i);
    CombineLaw(p, f, i);
    hide PlainOk, Value;
  }

  /** INPUT, CONST and ONE have their own values, and OUTPUT passes its operand on. */
  lemma SourceLaws(p: Plain, g: GateId)
    requires PlainOk(p) && g in p.gates
    ensures p.gates[g].op == INPUT ==> g in p.inputs && Value(p, Wire(g, 0)) == p.inputs[g]
    ensures p.gates[g].op == CONST ==> Value(p, Wire(g, 0)) == p.gates[g].value
    ensures p.gates[g].op == ONE ==> Value(p, Wire(g, 0)) == 1
    ensures p.gates[g].op == OUTPUT ==> |p.gates[g].fanins| == 1 && Value(p, Wire(g, 0)) == Operand(p, g, 0)
  {
    var xs := ValueFromOperands(p, g, 0);
    GateIsTyped(p, g);
    hide PlainOk, Value, Operand, GateTyped;
  }
}
