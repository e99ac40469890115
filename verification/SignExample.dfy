/** The lost sign of variable 0, on a run of convert_node: it makes one gate wrong and cancels out in another. */
module SignExample {
  import opened GateGraph
  import opened BooleanCircuit
  import opened Literals
  import opened NodeConversion

  const X: Literal := Literal(0, false)
  const Y: Literal := Literal(1, false)
  const HALF: Literal := Literal(2, false)
  const WHOLE: Literal := Literal(3, false)

  /** HALF is NOT x XOR y, and WHOLE is HALF XOR NOT x, which is y. */
  function NodeAt(k: int): (node: TmpNode) {
    match k
    case 0 => TmpNode(InputNode, X, X, X)
    case 1 => TmpNode(InputNode, Y, X, X)
    case 2 => TmpNode(XorNode, HALF, Not(X), Y)
    case _ => TmpNode(XorNode, WHOLE, HALF, Not(X))
  }

  const NODES: Nodes := map k: int | 0 <= k < 4 :: NodeAt(k)

  lemma NodesAreOk()
    ensures NodesOk(NODES)
    ensures forall k | 0 <= k < 4 :: k in NODES && NODES[k] == NodeAt(k)
  {
    FourNodes();
    forall k | k in NODES
      ensures NodeOk(k, NODES[k])
    {
    }
    hide NODES, NodeOk;
  }

  lemma FourNodes()
    ensures |NODES| == 4 && forall k :: k in NODES <==> 0 <= k < 4
  {
    assert NODES.Keys == {0, 1, 2, 3};
    assert |NODES.Keys| == 4;
  }

  /** Both literals have the negated variable 0 below them. */
  lemma BothMeetTheSign()
    ensures NodesOk(NODES) && Below(NODES, HALF, NEGATED_ZERO) && Below(NODES, WHOLE, NEGATED_ZERO)
  {
    NodesAreOk();
    hide NodesOk;
  }

  lemma InputValues(x: Inputs, dropped: bool)
    ensures NodesOk(NODES) && VarValue(NODES, 0, x, dropped) == x(0) && VarValue(NODES, 1, x, dropped) == x(1)
  {
    NodesAreOk();
    hide NodesOk;
  }

  lemma HalfValue(x: Inputs, dropped: bool)
    ensures NodesOk(NODES) && VarValue(NODES, 2, x, dropped) == ((x(0) == dropped) != x(1))
  {
    NodesAreOk();
    InputValues(x, dropped);
    hide NodesOk;
  }

  /** The gate of HALF is wrong for all inputs, the one of WHOLE right for all inputs. */
  lemma WrongAndRight(x: Inputs)
    ensures NodesOk(NODES) && Known(NODES, HALF) && Known(NODES, WHOLE)
    ensures Value(NODES, HALF, x, true) != Meaning(NODES, HALF, x)
    ensures Value(NODES, WHOLE, x, true) == Meaning(NODES, WHOLE, x) == x(1)
  {
    NodesAreOk();
    HalfValue(x, true);
    HalfValue(x, false);
    InputValues(x, true);
    InputValues(x, false);
    hide NodesOk;
  }

  lemma BothConvertible(inputs: set<int>)
    requires 0 in inputs && 1 in inputs
    ensures NodesOk(NODES) && Convertible(NODES, inputs, 2) && Convertible(NODES, inputs, 3)
  {
    NodesAreOk();
    hide NodesOk;
    assert Convertible(NODES, inputs, 0) && Convertible(NODES, inputs, 1);
    assert Convertible(NODES, inputs, 2);
  }

  /** The run: in every consistent valuation of the circuit HALF's gate is wrong and WHOLE's gate is right. */
  method ConvertBoth() returns (conversion: Conversion, half: GateId, whole: GateId)
    ensures conversion.nodes == NODES && NodesOk(NODES) && IsBoolean(conversion.gates)
    ensures exists rank: GateId -> nat :: Ranked(conversion.gates, rank)
    ensures forall x: Inputs, v: Valuation |
              Consistent(conversion.gates, v) && CarriesInputs(NODES, conversion.gates, conversion.labels, x, v) ::
              v(half) != Meaning(NODES, HALF, x) && v(whole) == Meaning(NODES, WHOLE, x)
  {
    hide StateOk, Kept, Convertible, IsBoolean, Consistent, CarriesInputs, Ranked, NODES, Value, Meaning;
    NodesAreOk();
    hide NodesOk;
    conversion := new Conversion(NODES);
    var gate := conversion.AddInput(X);
    gate := conversion.AddInput(Y);
    BothConvertible(conversion.inputs);
    var r := conversion.ConvertNode(HALF);
    half := r.value;
    ghost var gates, m, labels := conversion.gates, conversion.literalToGate, conversion.labels;
    r := conversion.ConvertNode(WHOLE);
    whole := r.value;
    assert half in conversion.gates && half in conversion.labels && conversion.labels[half] == LabelOf(HALF) by {
      GateStays(gates, m, labels, conversion.gates, conversion.literalToGate, conversion.labels, half);
    }
    ConvertedIsCircuit(NODES, conversion.inputs, conversion.gates, conversion.nextId, conversion.literalToGate, conversion.labels);
    forall x: Inputs, v: Valuation |
      Consistent(conversion.gates, v) && CarriesInputs(NODES, conversion.gates, conversion.labels, x, v)
      ensures v(half) != Meaning(NODES, HALF, x) && v(whole) == Meaning(NODES, WHOLE, x)
    {
      WrongAndRight(x);
      ConvertedLiteral(NODES, conversion.inputs, conversion.gates, conversion.nextId, conversion.literalToGate,
                       conversion.labels, x, v, HALF, half);
      ConvertedLiteral(NODES, conversion.inputs, conversion.gates, conversion.nextId, conversion.literalToGate,
                       conversion.labels, x, v, WHOLE, whole);
    }
  }
}
