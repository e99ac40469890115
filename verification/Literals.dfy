/** circuit_creator_defaultt: literals, the temporary nodes behind them, and the folding operations. */
module Literals {

  /** literalt: a variable number and a sign. */
  datatype Literal = Literal(varNo: nat, sign: bool)

  const CONST_VAR: nat := 0x7FFF_FFFF

  function ConstLiteral(value: bool): (l: Literal) { Literal(CONST_VAR, value) }

  predicate IsConstant(l: Literal) { l.varNo == CONST_VAR }

  function Not(l: Literal): (n: Literal) { Literal(l.varNo, !l.sign) }

  /** literalt::dimacs. Variable 0 has the same name with either sign. */
  function Dimacs(l: Literal): (d: int) {
    var v: int := l.varNo;
    if l.sign then -v else v
  }

  datatype NodeKind = AndNode | OrNode | XorNode | InputNode

  /** tmp_nodet */
  datatype TmpNode = TmpNode(kind: NodeKind, me: Literal, left: Literal, right: Literal)

  /** m_literal_to_node, by the DIMACS name of the literal */
  type Nodes = map<int, TmpNode>

  type Inputs = nat -> bool

  ghost predicate NodeOk(k: int, node: TmpNode) {
    && 0 <= k < CONST_VAR && node.me == Literal(k, false)
    && (node.kind != InputNode ==> node.left.varNo < k && node.right.varNo < k)
  }

  /** Variables are numbered in the order of their creation, and operands come first. */
  ghost predicate NodesOk(nodes: Nodes) {
    && (forall k :: k in nodes <==> 0 <= k < |nodes|)
    && forall k | k in nodes :: NodeOk(k, nodes[k])
  }

  ghost predicate Known(nodes: Nodes, l: Literal) { IsConstant(l) || l.varNo in nodes }

  /**
   The value of variable k under the inputs. With dropped, the sign of variable 0 is ignored, as it
   is lost in the DIMACS name.
   */
  ghost function VarValue(nodes: Nodes, k: nat, x: Inputs, dropped: bool): (b: bool)
    requires NodesOk(nodes) && k in nodes
    decreases k, 0
  {
    var node := nodes[k];
    assert NodeOk(k, node);
    if node.kind == InputNode then x(k)
    else
      var a := OperandValue(nodes, k, node.left, x, dropped);
      var b := OperandValue(nodes, k, node.right, x, dropped);
      match node.kind
      case AndNode => a && b
      case OrNode => a || b
      case _ => a != b
  }

  ghost function OperandValue(nodes: Nodes, k: nat, l: Literal, x: Inputs, dropped: bool): (b: bool)
    requires NodesOk(nodes) && k in nodes && l.varNo < k
    decreases l.varNo, 1
  {
    VarValue(nodes, l.varNo, x, dropped) != (l.sign && !(dropped && l.varNo == 0))
  }

  ghost function Value(nodes: Nodes, l: Literal, x: Inputs, dropped: bool): (b: bool)
    requires NodesOk(nodes) && Known(nodes, l)
  {
    if IsConstant(l) then l.sign
    else VarValue(nodes, l.varNo, x, dropped) != (l.sign && !(dropped && l.varNo == 0))
  }

  /** The meaning of a literal. */
  ghost function Meaning(nodes: Nodes, l: Literal, x: Inputs): (b: bool)
    requires NodesOk(nodes) && Known(nodes, l)
  {
    Value(nodes, l, x, false)
  }

  ghost predicate Extends(nodes: Nodes, nodes': Nodes) {
    forall k | k in nodes :: k in nodes' && nodes'[k] == nodes[k]
  }

  lemma {:induction false} VarValueStays(nodes: Nodes, nodes': Nodes, k: nat, x: Inputs, dropped: bool)
    requires NodesOk(nodes) && NodesOk(nodes') && Extends(nodes, nodes') && k in nodes
    ensures VarValue(nodes', k, x, dropped) == VarValue(nodes, k, x, dropped)
    decreases k
  {
    var node := nodes[k];
    assert NodeOk(k, node);
    if node.kind != InputNode {
      VarValueStays(nodes, nodes', node.left.varNo, x, dropped);
      VarValueStays(nodes, nodes', node.right.varNo, x, dropped);
    }
  }

  /** New nodes change the meaning of no literal. */
  lemma MeaningStays(nodes: Nodes, nodes': Nodes, l: Literal, x: Inputs)
    requires NodesOk(nodes) && NodesOk(nodes') && Extends(nodes, nodes') && Known(nodes, l)
    ensures Known(nodes', l) && Meaning(nodes', l, x) == Meaning(nodes, l, x)
  {
    if !IsConstant(l) {
      VarValueStays(nodes, nodes', l.varNo, x, false);
    }
  }

  lemma MeaningOfConstant(nodes: Nodes, value: bool)
    requires NodesOk(nodes)
    ensures forall x: Inputs :: Meaning(nodes, ConstLiteral(value), x) == value
  {
  }

  // ----- the specification of the operations -----

  ghost function Apply(kind: NodeKind, a: bool, b: bool): (r: bool) {
    match kind
    case AndNode => a && b
    case OrNode => a || b
    case _ => a != b
  }

  /** r is the literal for (a kind b), and at most one node is new. */
  ghost predicate IsResult(nodes: Nodes, nodes': Nodes, kind: NodeKind, a: Literal, b: Literal, r: Literal) {
    && NodesOk(nodes) && NodesOk(nodes') && Extends(nodes, nodes') && |nodes'| <= |nodes| + 1
    && Known(nodes, a) && Known(nodes, b) && Known(nodes', a) && Known(nodes', b) && Known(nodes', r)
    && forall x: Inputs :: Meaning(nodes', r, x) == Apply(kind, Meaning(nodes, a, x), Meaning(nodes, b, x))
  }

  ghost function WithNode(nodes: Nodes, kind: NodeKind, a: Literal, b: Literal): (nodes': Nodes) {
    nodes[|nodes| := TmpNode(kind, Literal(|nodes|, false), a, b)]
  }

  lemma NewNodeOk(nodes: Nodes, kind: NodeKind, a: Literal, b: Literal)
    requires NodesOk(nodes) && |nodes| < CONST_VAR
    requires kind != InputNode ==> a.varNo in nodes && b.varNo in nodes
    ensures NodesOk(WithNode(nodes, kind, a, b)) && Extends(nodes, WithNode(nodes, kind, a, b))
    ensures |WithNode(nodes, kind, a, b)| == |nodes| + 1
  {
    var nodes' := WithNode(nodes, kind, a, b);
    forall k | k in nodes'
      ensures NodeOk(k, nodes'[k])
    {
      if k in nodes {
        assert NodeOk(k, nodes[k]);
      }
    }
  }

  lemma NewNodeIsResult(nodes: Nodes, kind: NodeKind, a: Literal, b: Literal)
    requires NodesOk(nodes) && |nodes| < CONST_VAR && kind != InputNode
    requires a.varNo in nodes && b.varNo in nodes
    ensures IsResult(nodes, WithNode(nodes, kind, a, b), kind, a, b, Literal(|nodes|, false))
  {
    NewNodeOk(nodes, kind, a, b);
    var nodes' := WithNode(nodes, kind, a, b);
    var r := Literal(|nodes|, false);
    assert NodeOk(|nodes|, nodes'[|nodes|]);
    forall x: Inputs
      ensures Meaning(nodes', r, x) == Apply(kind, Meaning(nodes, a, x), Meaning(nodes, b, x))
    {
      assert nodes'[|nodes|] == TmpNode(kind, r, a, b);
      NodeOperands(nodes, a);
      NodeOperands(nodes, b);
      MeaningStays(nodes, nodes', a, x);
      MeaningStays(nodes, nodes', b, x);
      assert Meaning(nodes', r, x) == VarValue(nodes', |nodes|, x, false);
      assert OperandValue(nodes', |nodes|, a, x, false) == Meaning(nodes', a, x);
      assert OperandValue(nodes', |nodes|, b, x, false) == Meaning(nodes', b, x);
    }
  }

  lemma NodeOperands(nodes: Nodes, a: Literal)
    requires NodesOk(nodes) && a.varNo in nodes
    ensures a.varNo < |nodes| && !IsConstant(a)
  {
    assert NodeOk(a.varNo, nodes[a.varNo]);
  }

  class CircuitCreator {
    var nodes: Nodes

    constructor ()
      ensures nodes == map[]
    {
      nodes := map[];
    }

    method NewVariable() returns (l: Literal)
      requires NodesOk(nodes) && |nodes| < CONST_VAR
      modifies this
      ensures NodesOk(nodes) && Extends(old(nodes), nodes) && l == Literal(|old(nodes)|, false) && l.varNo in nodes
      ensures forall x: Inputs :: Meaning(nodes, l, x) == x(l.varNo)
    {
      l := Literal(|nodes|, false);
      NewNodeOk(nodes, InputNode, l, l);
      nodes := nodes[Dimacs(l) := TmpNode(InputNode, l, l, l)];
    }

    method NewNode(kind: NodeKind, left: Literal, right: Literal) returns (l: Literal)
      requires NodesOk(nodes) && |nodes| < CONST_VAR && kind != InputNode
      requires left.varNo in nodes && right.varNo in nodes
      modifies this
      ensures IsResult(old(nodes), nodes, kind, left, right, l)
    {
      NewNodeIsResult(nodes, kind, left, right);
      l := Literal(|nodes|, false);
      nodes := nodes[Dimacs(l) := TmpNode(kind, l, left, right)];
    }

    method LAnd(a: Literal, b: Literal) returns (r: Literal)
      requires NodesOk(nodes) && |nodes| < CONST_VAR && Known(nodes, a) && Known(nodes, b)
      modifies this
      ensures IsResult(old(nodes), nodes, AndNode, a, b, r)
    {
      if a == ConstLiteral(false) || b == ConstLiteral(false) {
        r := ConstLiteral(false);
      } else if a == ConstLiteral(true) {
        r := b;
      } else if b == ConstLiteral(true) {
        r := a;
      } else if a.varNo == b.varNo {
        r := if a.sign == b.sign then a else ConstLiteral(false);
      } else {
        r := NewNode(AndNode, a, b);
      }
    }

    method LOr(a: Literal, b: Literal) returns (r: Literal)
      requires NodesOk(nodes) && |nodes| < CONST_VAR && Known(nodes, a) && Known(nodes, b)
      modifies this
      ensures IsResult(old(nodes), nodes, OrNode, a, b, r)
    {
      if a == ConstLiteral(true) || b == ConstLiteral(true) {
        r := ConstLiteral(true);
      } else if a == ConstLiteral(false) {
        r := b;
      } else if b == ConstLiteral(false) {
        r := a;
      } else if a.varNo == b.varNo {
        r := if a.sign == b.sign then a else ConstLiteral(true);
      } else {
        r := NewNode(OrNode, a, b);
      }
    }

    method LXor(a: Literal, b: Literal) returns (r: Literal)
      requires NodesOk(nodes) && |nodes| < CONST_VAR && Known(nodes, a) && Known(nodes, b)
      modifies this
      ensures IsResult(old(nodes), nodes, XorNode, a, b, r)
    {
      if IsConstant(b) {
        r := if b.sign then Not(a) else a;
      } else if IsConstant(a) {
        r := if a.sign then Not(b) else b;
      } else if a.varNo == b.varNo {
        r := if a.sign == b.sign then ConstLiteral(false) else ConstLiteral(true);
      } else {
        r := NewNode(XorNode, a, b);
      }
    }

    /** a ? b : c with one AND */
    method LSelect(a: Literal, b: Literal, c: Literal) returns (r: Literal)
      requires NodesOk(nodes) && |nodes| + 3 <= CONST_VAR && Known(nodes, a) && Known(nodes, b) && Known(nodes, c)
      modifies this
      ensures NodesOk(nodes) && Extends(old(nodes), nodes) && |nodes| <= |old(nodes)| + 3 && Known(nodes, r)
      ensures Known(nodes, a) && Known(nodes, b) && Known(nodes, c)
      ensures forall x: Inputs ::
                Meaning(nodes, r, x) == if Meaning(nodes, a, x) then Meaning(nodes, b, x) else Meaning(nodes, c, x)
    {
      hide IsResult, NodesOk, Meaning;
      ghost var n0 := nodes;
      var difference := LXor(b, c);
      ghost var n1 := nodes;
      ResultExtends(n0, n1, XorNode, b, c, difference);
      KnownStays(n0, n1, a);
      KnownStays(n0, n1, c);
      var masked := LAnd(a, difference);
      ghost var n2 := nodes;
      ResultExtends(n1, n2, AndNode, a, difference, masked);
      KnownStays(n1, n2, c);
      r := LXor(c, masked);
      ResultExtends(n2, nodes, XorNode, c, masked, r);
      SelectMeaning(n0, n1, n2, nodes, a, b, c, difference, masked, r);
    }

    method LEqual(a: Literal, b: Literal) returns (r: Literal)
      requires NodesOk(nodes) && |nodes| < CONST_VAR && Known(nodes, a) && Known(nodes, b)
      modifies this
      ensures IsResult(old(nodes), nodes, XorNode, a, b, Not(r))
    {
      r := LXor(a, b);
      r := Not(r);
    }

    method LImplies(a: Literal, b: Literal) returns (r: Literal)
      requires NodesOk(nodes) && |nodes| < CONST_VAR && Known(nodes, a) && Known(nodes, b)
      modifies this
      ensures IsResult(old(nodes), nodes, OrNode, Not(a), b, r)
    {
      r := LOr(Not(a), b);
    }

    /** land(bvt): the conjunction of a list. */
    method LAndAll(bv: seq<Literal>) returns (r: Literal)
      requires NodesOk(nodes) && |nodes| + |bv| <= CONST_VAR && forall l | l in bv :: Known(nodes, l)
      modifies this
      ensures NodesOk(nodes) && Extends(old(nodes), nodes) && Known(nodes, r) && AllKnown(nodes, bv)
      ensures forall x: Inputs :: Meaning(nodes, r, x) <==> forall l | l in bv :: Meaning(nodes, l, x)
    {
      MeaningOfConstant(nodes, true);
      hide NodesOk, Meaning, IsResult;
      if bv == [] { return ConstLiteral(true); }
      if |bv| == 1 { return bv[0]; }
      r := bv[0];
      for i := 1 to |bv|
        invariant NodesOk(nodes) && Extends(old(nodes), nodes) && |nodes| <= |old(nodes)| + i
        invariant Known(nodes, r) && AllKnown(nodes, bv)
        invariant forall x: Inputs :: Meaning(nodes, r, x) <==> AllTrue(nodes, bv[..i], x)
      {
        ghost var before := nodes;
        ghost var front := r;
        r := LAnd(r, bv[i]);
        ResultExtends(before, nodes, AndNode, front, bv[i], r);
        AllKnownStays(before, nodes, bv);
        NextConjunct(before, nodes, bv, i, front, r);
      }
      assert bv[..|bv|] == bv;
    }
  }

  ghost predicate AllKnown(nodes: Nodes, bv: seq<Literal>) { forall l | l in bv :: Known(nodes, l) }

  ghost predicate AllTrue(nodes: Nodes, bv: seq<Literal>, x: Inputs)
    requires NodesOk(nodes) && AllKnown(nodes, bv)
  {
    forall l | l in bv :: Meaning(nodes, l, x)
  }

  lemma ResultExtends(nodes: Nodes, nodes': Nodes, kind: NodeKind, a: Literal, b: Literal, r: Literal)
    requires IsResult(nodes, nodes', kind, a, b, r)
    ensures NodesOk(nodes) && NodesOk(nodes') && Extends(nodes, nodes') && |nodes'| <= |nodes| + 1 && Known(nodes', r)
    ensures Known(nodes', a) && Known(nodes', b)
  {
  }

  lemma KnownStays(nodes: Nodes, nodes': Nodes, l: Literal)
    requires Extends(nodes, nodes') && Known(nodes, l)
    ensures Known(nodes', l)
  {
  }

  lemma AllKnownStays(nodes: Nodes, nodes': Nodes, bv: seq<Literal>)
    requires Extends(nodes, nodes') && AllKnown(nodes, bv)
    ensures AllKnown(nodes', bv)
  {
  }

  lemma NextConjunct(nodes: Nodes, nodes': Nodes, bv: seq<Literal>, i: nat, front: Literal, r: Literal)
    requires i < |bv| && NodesOk(nodes) && AllKnown(nodes, bv) && IsResult(nodes, nodes', AndNode, front, bv[i], r)
    requires AllKnown(nodes', bv) && NodesOk(nodes') && Known(nodes', r) && Known(nodes, front)
    requires forall x: Inputs :: Meaning(nodes, front, x) <==> AllTrue(nodes, bv[..i], x)
    ensures forall x: Inputs :: Meaning(nodes', r, x) <==> AllTrue(nodes', bv[..i + 1], x)
  {
    forall x: Inputs
      ensures Meaning(nodes', r, x) <==> AllTrue(nodes', bv[..i + 1], x)
    {
      ResultAt(nodes, nodes', AndNode, front, bv[i], r, x);
      assert Meaning(nodes, front, x) <==> AllTrue(nodes, bv[..i], x);
      forall l | l in bv
        ensures Meaning(nodes', l, x) == Meaning(nodes, l, x)
      {
        MeaningStays(nodes, nodes', l, x);
      }
      hide Meaning, NodesOk, IsResult;
      assert bv[..i + 1] == bv[..i] + [bv[i]];
    }
  }

  lemma ResultAt(nodes: Nodes, nodes': Nodes, kind: NodeKind, a: Literal, b: Literal, r: Literal, x: Inputs)
    requires IsResult(nodes, nodes', kind, a, b, r)
    ensures NodesOk(nodes) && NodesOk(nodes') && Known(nodes, a) && Known(nodes, b) && Known(nodes', r)
    ensures Meaning(nodes', r, x) == Apply(kind, Meaning(nodes, a, x), Meaning(nodes, b, x))
  {
  }

  lemma SelectMeaning(n0: Nodes, n1: Nodes, n2: Nodes, n3: Nodes, a: Literal, b: Literal, c: Literal,
                      difference: Literal, masked: Literal, r: Literal)
    requires NodesOk(n0) && Known(n0, a) && Known(n0, b) && Known(n0, c)
    requires IsResult(n0, n1, XorNode, b, c, difference) && IsResult(n1, n2, AndNode, a, difference, masked)
    requires IsResult(n2, n3, XorNode, c, masked, r)
    ensures NodesOk(n3) && Extends(n0, n3) && Known(n3, a) && Known(n3, b) && Known(n3, c) && Known(n3, r)
    ensures forall x: Inputs ::
              Meaning(n3, r, x) == if Meaning(n3, a, x) then Meaning(n3, b, x) else Meaning(n3, c, x)
  {
    hide IsResult, NodesOk, Meaning;
    ResultExtends(n0, n1, XorNode, b, c, difference);
    ResultExtends(n1, n2, AndNode, a, difference, masked);
    ResultExtends(n2, n3, XorNode, c, masked, r);
    KnownStays(n0, n3, a);
    KnownStays(n0, n3, b);
    forall x: Inputs
      ensures Meaning(n3, r, x) == if Meaning(n3, a, x) then Meaning(n3, b, x) else Meaning(n3, c, x)
    {
      ResultAt(n0, n1, XorNode, b, c, difference, x);
      ResultAt(n1, n2, AndNode, a, difference, masked, x);
      ResultAt(n2, n3, XorNode, c, masked, r, x);
      MeaningStays(n0, n1, a, x);
      MeaningStays(n0, n3, a, x);
      MeaningStays(n0, n3, b, x);
      MeaningStays(n0, n2, c, x);
      MeaningStays(n0, n3, c, x);
    }
  }
}
