/** convert_node: from literals to gates, with a gate for every literal that was met. */
module NodeConversion {
  import opened Basics
  import opened GateGraph
  import opened BooleanCircuit
  import opened Literals

  /** What a gate stands for. */
  datatype Label = TrueGate | FalseGate | LitGate(d: int)

  type Labels = map<GateId, Label>
  type LiteralMap = map<int, GateId>

  const ONE_GATE: GateId := 1
  const ZERO_GATE: GateId := 2
  const EMPTY: Wire := Wire(0, 0)

  function VarOf(d: int): (k: nat) { if d < 0 then -d else d }

  function LabelOf(l: Literal): (meant: Label) {
    if IsConstant(l) then (if l.sign then TrueGate else FalseGate) else LitGate(Dimacs(l))
  }

  function OpOf(kind: NodeKind): (op: Op)
    requires kind != InputNode
  {
    match kind
    case AndNode => AND
    case OrNode => OR
    case _ => XOR
  }

  // ----- what holds between the steps -----

  ghost predicate ShapeOk(nodes: Nodes, gates: Gates, labels: Labels, g: GateId)
    requires g in gates && g in labels
  {
    && GateIsBoolean(gates[g]) && gates[g].op != OUTPUT
    && (labels[g] == TrueGate <==> g == ONE_GATE) && (labels[g] == FalseGate <==> g == ZERO_GATE)
    && (labels[g].LitGate? ==> VarOf(labels[g].d) in nodes)
  }

  ghost predicate NamesOk(nodes: Nodes, gates: Gates, next: nat, labels: Labels) {
    && gates.Keys == labels.Keys && ONE_GATE in gates && ZERO_GATE in gates && ZERO_GATE < next
    && (forall g | g in gates :: 0 < g < next && ShapeOk(nodes, gates, labels, g))
  }

  ghost predicate Reads(gates: Gates, labels: Labels, pending: set<GateId>, g: GateId, i: nat, meant: Label)
    requires g in gates
  {
    i < |gates[g].fanins| && var f := gates[g].fanins[i].gate; f in gates && f in labels && labels[f] == meant && f !in pending
  }

  /** The gate computes its label from the labels of its fanins. */
  ghost predicate Spells(nodes: Nodes, gates: Gates, labels: Labels, pending: set<GateId>, g: GateId)
    requires g in gates && g in labels
  {
    match gates[g].op
    case ONE => labels[g] == TrueGate
    case INPUT => labels[g].LitGate? && VarOf(labels[g].d) in nodes && nodes[VarOf(labels[g].d)].kind == InputNode
    case NOT =>
      (match labels[g]
       case FalseGate => Reads(gates, labels, pending, g, 0, TrueGate)
       case LitGate(d) => d != 0 && Reads(gates, labels, pending, g, 0, LitGate(-d))
       case _ => false)
    case _ =>
      && labels[g].LitGate? && 0 <= labels[g].d && labels[g].d in nodes
      && var node := nodes[labels[g].d];
         && node.kind != InputNode && gates[g].op == OpOf(node.kind)
         && Reads(gates, labels, pending, g, 0, LitGate(Dimacs(node.left)))
         && Reads(gates, labels, pending, g, 1, LitGate(Dimacs(node.right)))
  }

  ghost predicate AllSpell(nodes: Nodes, gates: Gates, labels: Labels, pending: set<GateId>) {
    gates.Keys == labels.Keys && forall g | g in gates && g !in pending :: Spells(nodes, gates, labels, pending, g)
  }

  /** Each cached literal has its gate, and each finished gate is cached. */
  ghost predicate MapOk(m: LiteralMap, labels: Labels, pending: set<GateId>) {
    && (forall d | d in m :: m[d] in labels && labels[m[d]] == LitGate(d) && m[d] !in pending)
    && (forall g | g in labels && g !in pending && labels[g].LitGate? :: labels[g].d in m && m[labels[g].d] == g)
  }

  ghost predicate SameRole(gates: Gates, labels: Labels, g: GateId, h: GateId)
    requires g in gates && g in labels && h in gates && h in labels
  {
    && labels[g].LitGate? && labels[h].LitGate? && VarOf(labels[g].d) == VarOf(labels[h].d)
    && (gates[g].op == NOT <==> gates[h].op == NOT)
  }

  /** At most one gate per node, and one NOT per variable. */
  ghost predicate OnePerNode(gates: Gates, labels: Labels) {
    gates.Keys == labels.Keys && forall g, h | g in gates && h in gates && SameRole(gates, labels, g, h) :: g == h
  }

  /** The literal can be converted: all input variables below it have a gate. */
  ghost predicate Convertible(nodes: Nodes, inputs: set<int>, k: nat)
    requires NodesOk(nodes)
    decreases k
  {
    k in nodes
    && (assert NodeOk(k, nodes[k]);
        if nodes[k].kind == InputNode then k in inputs || Dimacs(Literal(k, true)) in inputs
        else Convertible(nodes, inputs, nodes[k].left.varNo) && Convertible(nodes, inputs, nodes[k].right.varNo))
  }

  ghost predicate AllConvertible(nodes: Nodes, inputs: set<int>, m: LiteralMap)
    requires NodesOk(nodes)
  {
    (forall d | d in m :: Convertible(nodes, inputs, VarOf(d))) && (forall d | d in inputs :: d in m)
  }

  /** A slot of a gate being built is empty, or the wire in it is there at both ends, as in all other gates. */
  ghost predicate SlotOk(gates: Gates, pending: set<GateId>, g: GateId, i: nat)
    requires g in gates && i < |gates[g].fanins|
  {
    (g in pending && gates[g].fanins[i] == EMPTY) || FaninMirrored(gates, g, i)
  }

  ghost predicate WiredOk(gates: Gates, pending: set<GateId>) {
    && 0 !in gates
    && (forall g, i: nat | g in gates && i < |gates[g].fanins| :: SlotOk(gates, pending, g, i))
    && (forall g, i: nat | g in gates && i < |gates[g].fanouts| :: FanoutMirrored(gates, g, i))
    && (forall g | g in gates :: NoDuplicates(gates[g].fanouts))
  }

  ghost predicate StateOk(nodes: Nodes, inputs: set<int>, gates: Gates, next: nat, m: LiteralMap, labels: Labels, pending: set<GateId>) {
    && NodesOk(nodes) && NamesOk(nodes, gates, next, labels) && AllSpell(nodes, gates, labels, pending)
    && MapOk(m, labels, pending) && OnePerNode(gates, labels) && AllConvertible(nodes, inputs, m)
    && pending <= gates.Keys && WiredOk(gates, pending)
    && forall p | p in pending :: labels[p].LitGate?
  }

  /** Gates keep their operation, fanins and label. */
  ghost predicate Kept(gates: Gates, m: LiteralMap, labels: Labels, gates': Gates, m': LiteralMap, labels': Labels) {
    && (forall g | g in gates :: g in gates' && gates'[g].op == gates[g].op && gates'[g].fanins == gates[g].fanins)
    && (forall g | g in labels :: g in labels' && labels'[g] == labels[g])
    && (forall d | d in m :: d in m' && m'[d] == m[d])
  }

  ghost predicate LaterOnly(labels: Labels, pending: set<GateId>, k: nat) {
    forall p | p in pending :: p in labels && labels[p].LitGate? && k < VarOf(labels[p].d)
  }

  lemma LaterStays(gates: Gates, m: LiteralMap, labels: Labels, gates': Gates, m': LiteralMap, labels': Labels,
                   pending: set<GateId>, k: nat)
    requires Kept(gates, m, labels, gates', m', labels') && LaterOnly(labels, pending, k)
    ensures LaterOnly(labels', pending, k)
  {
  }

  lemma LaterMore(labels: Labels, pending: set<GateId>, k: nat, g: GateId)
    requires LaterOnly(labels, pending, k) && g !in labels
    ensures LaterOnly(labels[g := LitGate(k)], pending, k)
  {
  }

  lemma LaterLess(labels: Labels, pending: set<GateId>, k: nat, g: GateId, j: nat)
    requires LaterOnly(labels, pending, k) && g in labels && labels[g] == LitGate(k) && j < k
    ensures LaterOnly(labels, pending + {g}, j)
  {
  }

  // ----- the steps -----

  /** No gate exists for this variable in this role. */
  ghost predicate IsFree(gates: Gates, labels: Labels, k: nat, isNot: bool) {
    gates.Keys == labels.Keys
    && forall g | g in gates && labels[g].LitGate? && VarOf(labels[g].d) == k :: (gates[g].op == NOT) != isNot
  }

  ghost function Created(gates: Gates, next: nat, op: Op): (gates': Gates) {
    gates[next := Gate(op, 1, 0, seq(Arity(op), _ => EMPTY), [])]
  }

  lemma CreateKeeps(nodes: Nodes, inputs: set<int>, gates: Gates, next: nat, m: LiteralMap, labels: Labels, pending: set<GateId>,
                    op: Op, d: int)
    requires StateOk(nodes, inputs, gates, next, m, labels, pending)
    requires op == NOT || op == AND || op == OR || op == XOR
    requires VarOf(d) in nodes && IsFree(gates, labels, VarOf(d), op == NOT)
    ensures StateOk(nodes, inputs, Created(gates, next, op), next + 1, m, labels[next := LitGate(d)], pending + {next})
    ensures Kept(gates, m, labels, Created(gates, next, op), m, labels[next := LitGate(d)])
    ensures next !in gates && next !in pending && next !in labels
  {
    var gates', labels', pending' := Created(gates, next, op), labels[next := LitGate(d)], pending + {next};
    hide WiredOk, NodesOk, NamesOk, Convertible, AllSpell, OnePerNode, IsFree, Created, MapOk, AllConvertible;
    CreatedNames(nodes, gates, next, labels, op, d);
    CreatedSpells(nodes, gates, next, labels, pending, op, d);
    CreatedOnce(gates, next, labels, op, d);
    CreatedMap(m, labels, pending, next, d);
    CreatedWires(gates, next, pending, op);
  }

  lemma CreatedWires(gates: Gates, next: nat, pending: set<GateId>, op: Op)
    requires WiredOk(gates, pending) && next !in gates && 0 < next
    ensures WiredOk(Created(gates, next, op), pending + {next})
  {
    var gates', pending' := Created(gates, next, op), pending + {next};
    forall g, i: nat | g in gates' && i < |gates'[g].fanins|
      ensures SlotOk(gates', pending', g, i)
    {
      assert g in gates ==> SlotOk(gates, pending, g, i);
    }
    forall g, i: nat | g in gates' && i < |gates'[g].fanouts|
      ensures FanoutMirrored(gates', g, i)
    {
      assert g in gates ==> FanoutMirrored(gates, g, i);
    }
  }

  lemma CreatedMap(m: LiteralMap, labels: Labels, pending: set<GateId>, next: nat, d: int)
    requires MapOk(m, labels, pending) && next !in labels
    ensures MapOk(m, labels[next := LitGate(d)], pending + {next})
  {
  }

  lemma CreatedSpells(nodes: Nodes, gates: Gates, next: nat, labels: Labels, pending: set<GateId>, op: Op, d: int)
    requires AllSpell(nodes, gates, labels, pending) && next !in gates
    ensures AllSpell(nodes, Created(gates, next, op), labels[next := LitGate(d)], pending + {next})
    ensures forall g | g in gates :: g in Created(gates, next, op) && Created(gates, next, op)[g] == gates[g]
  {
    hide Spells, Reads;
    var gates', labels', pending' := Created(gates, next, op), labels[next := LitGate(d)], pending + {next};
    forall g | g in gates' && g !in pending'
      ensures Spells(nodes, gates', labels', pending', g)
    {
      assert Spells(nodes, gates, labels, pending, g);
      SpellsStays(nodes, gates, labels, pending, gates', labels', pending', g);
    }
  }

  lemma CreatedOnce(gates: Gates, next: nat, labels: Labels, op: Op, d: int)
    requires OnePerNode(gates, labels) && next !in gates && IsFree(gates, labels, VarOf(d), op == NOT)
    ensures OnePerNode(Created(gates, next, op), labels[next := LitGate(d)])
  {
    var gates', labels' := Created(gates, next, op), labels[next := LitGate(d)];
    forall g, h | g in gates' && h in gates' && SameRole(gates', labels', g, h)
      ensures g == h
    {
      assert g in gates && h in gates ==> SameRole(gates, labels, g, h);
    }
  }

  lemma CreatedNames(nodes: Nodes, gates: Gates, next: nat, labels: Labels, op: Op, d: int)
    requires NamesOk(nodes, gates, next, labels) && VarOf(d) in nodes
    requires op == NOT || op == AND || op == OR || op == XOR
    ensures NamesOk(nodes, Created(gates, next, op), next + 1, labels[next := LitGate(d)])
    ensures 0 < next && next !in gates && next !in labels && gates.Keys == labels.Keys && Created(gates, next, op).Keys == gates.Keys + {next}
  {
    var gates', labels' := Created(gates, next, op), labels[next := LitGate(d)];
    forall g | g in gates'
      ensures ShapeOk(nodes, gates', labels', g)
    {
      if g != next {
        assert ShapeOk(nodes, gates, labels, g);
      }
    }
  }

  /** A finished gate goes on spelling its label if what it reads stays finished. */
  lemma SpellsStays(nodes: Nodes, gates: Gates, labels: Labels, pending: set<GateId>,
                    gates': Gates, labels': Labels, pending': set<GateId>, g: GateId)
    requires g in gates && g in labels && Spells(nodes, gates, labels, pending, g)
    requires g in gates' && g in labels' && labels'[g] == labels[g]
    requires gates'[g].op == gates[g].op && gates'[g].fanins == gates[g].fanins
    requires forall f | f in gates && f in labels && f !in pending ::
               f in gates' && f in labels' && labels'[f] == labels[f] && f !in pending'
    ensures Spells(nodes, gates', labels', pending', g)
  {
  }

  /** Filling a slot of a pending gate. */
  lemma FillKeeps(nodes: Nodes, inputs: set<int>, gates: Gates, next: nat, m: LiteralMap, labels: Labels, pending: set<GateId>,
                  p: GateId, i: nat, f: GateId)
    requires StateOk(nodes, inputs, gates, next, m, labels, pending)
    requires p in pending && i < |gates[p].fanins| && f in gates && gates[p].fanins[i] == EMPTY
    ensures StateOk(nodes, inputs, Connected(gates, f, 0, Wire(p, i)), next, m, labels, pending)
    ensures forall g | g in gates && g != p :: Connected(gates, f, 0, Wire(p, i))[g].fanins == gates[g].fanins
    ensures forall g | g in gates :: Connected(gates, f, 0, Wire(p, i))[g].op == gates[g].op
    ensures Connected(gates, f, 0, Wire(p, i))[p].fanins == gates[p].fanins[i := Wire(f, 0)]
    ensures Connected(gates, f, 0, Wire(p, i)).Keys == gates.Keys
  {
    var gates' := Connected(gates, f, 0, Wire(p, i));
    forall g | g in gates
      ensures gates'[g].op == gates[g].op && gates'.Keys == gates.Keys
      ensures gates'[g].fanins == if g == p then gates[g].fanins[i := Wire(f, 0)] else gates[g].fanins
    {
      ConnectedAt(gates, f, 0, Wire(p, i), g);
    }
    FilledNames(nodes, gates, next, labels, p, i, f);
    FilledSpells(nodes, gates, labels, pending, p, i, f);
    FilledOnce(gates, labels, p, i, f);
    FilledWires(gates, pending, p, i, f);
    hide WiredOk, NodesOk, NamesOk, Convertible, AllSpell, OnePerNode, Connected, MapOk, AllConvertible;
  }

  lemma FilledWires(gates: Gates, pending: set<GateId>, p: GateId, i: nat, f: GateId)
    requires WiredOk(gates, pending) && p in pending && p in gates && i < |gates[p].fanins| && f in gates
    requires gates[p].fanins[i] == EMPTY
    ensures WiredOk(Connected(gates, f, 0, Wire(p, i)), pending)
  {
    var gates' := Connected(gates, f, 0, Wire(p, i));
    forall g | g in gates
      ensures gates'.Keys == gates.Keys && |gates'[g].fanins| == |gates[g].fanins|
      ensures gates'[g].fanins == if g == p then gates[g].fanins[i := Wire(f, 0)] else gates[g].fanins
      ensures gates'[g].fanouts == gates[g].fanouts + if g == f then [Fanout(0, Wire(p, i))] else []
    {
      ConnectedAt(gates, f, 0, Wire(p, i), g);
    }
    hide Connected;
    forall g, k: nat | g in gates' && k < |gates'[g].fanins|
      ensures SlotOk(gates', pending, g, k)
    {
      assert SlotOk(gates, pending, g, k);
      if g == p && k == i {
        assert gates'[f].fanouts[|gates[f].fanouts|] == Fanout(0, Wire(p, i));
      }
    }
    forall g, k: nat | g in gates' && k < |gates'[g].fanouts|
      ensures FanoutMirrored(gates', g, k)
    {
      assert k < |gates[g].fanouts| ==> FanoutMirrored(gates, g, k);
    }
    NewFanoutIsNew(gates, pending, p, i, f);
  }

  /** No fanout leads to an empty slot. */
  lemma NewFanoutIsNew(gates: Gates, pending: set<GateId>, p: GateId, i: nat, f: GateId)
    requires WiredOk(gates, pending) && p in gates && i < |gates[p].fanins| && f in gates && gates[p].fanins[i] == EMPTY
    ensures NoDuplicates(gates[f].fanouts + [Fanout(0, Wire(p, i))])
  {
    forall k: nat | k < |gates[f].fanouts|
      ensures gates[f].fanouts[k] != Fanout(0, Wire(p, i))
    {
      assert FanoutMirrored(gates, f, k);
    }
  }

  /** A finished gate has no empty slots. */
  lemma FinishedWires(nodes: Nodes, gates: Gates, labels: Labels, pending: set<GateId>, p: GateId)
    requires WiredOk(gates, pending) && p in gates && p in labels && GateIsBoolean(gates[p]) && gates[p].op != OUTPUT
    requires Spells(nodes, gates, labels, pending, p)
    ensures WiredOk(gates, pending - {p})
  {
    forall g, i: nat | g in gates && i < |gates[g].fanins|
      ensures SlotOk(gates, pending - {p}, g, i)
    {
      assert SlotOk(gates, pending, g, i);
      assert g == p ==> gates[g].fanins[i].gate in gates;
    }
  }

  lemma FilledNames(nodes: Nodes, gates: Gates, next: nat, labels: Labels, p: GateId, i: nat, f: GateId)
    requires NamesOk(nodes, gates, next, labels) && p in gates && i < |gates[p].fanins| && f in gates
    ensures NamesOk(nodes, Connected(gates, f, 0, Wire(p, i)), next, labels)
  {
    var gates' := Connected(gates, f, 0, Wire(p, i));
    hide Connected;
    ConnectedAt(gates, f, 0, Wire(p, i), p);
    forall g | g in gates'
      ensures ShapeOk(nodes, gates', labels, g)
    {
      assert ShapeOk(nodes, gates, labels, g);
      ConnectedAt(gates, f, 0, Wire(p, i), g);
    }
  }

  lemma FilledSpells(nodes: Nodes, gates: Gates, labels: Labels, pending: set<GateId>, p: GateId, i: nat, f: GateId)
    requires AllSpell(nodes, gates, labels, pending) && p in pending && p in gates && i < |gates[p].fanins| && f in gates
    ensures AllSpell(nodes, Connected(gates, f, 0, Wire(p, i)), labels, pending)
  {
    var gates' := Connected(gates, f, 0, Wire(p, i));
    hide Connected, Spells, Reads;
    ConnectedAt(gates, f, 0, Wire(p, i), p);
    forall g | g in gates' && g !in pending
      ensures Spells(nodes, gates', labels, pending, g)
    {
      assert Spells(nodes, gates, labels, pending, g);
      ConnectedAt(gates, f, 0, Wire(p, i), g);
      SpellsStays(nodes, gates, labels, pending, gates', labels, pending, g);
    }
  }

  lemma FilledOnce(gates: Gates, labels: Labels, p: GateId, i: nat, f: GateId)
    requires OnePerNode(gates, labels) && p in gates && i < |gates[p].fanins| && f in gates
    ensures OnePerNode(Connected(gates, f, 0, Wire(p, i)), labels)
  {
    var gates' := Connected(gates, f, 0, Wire(p, i));
    hide Connected;
    ConnectedAt(gates, f, 0, Wire(p, i), p);
    forall g, h | g in gates' && h in gates' && SameRole(gates', labels, g, h)
      ensures g == h
    {
      ConnectedAt(gates, f, 0, Wire(p, i), g);
      ConnectedAt(gates, f, 0, Wire(p, i), h);
      assert SameRole(gates, labels, g, h);
    }
  }

  /** A pending gate that spells its label is finished and cached. */
  lemma FinishKeeps(nodes: Nodes, inputs: set<int>, gates: Gates, next: nat, m: LiteralMap, labels: Labels, pending: set<GateId>,
                    p: GateId)
    requires StateOk(nodes, inputs, gates, next, m, labels, pending)
    requires p in pending && Spells(nodes, gates, labels, pending, p) && labels[p].LitGate? && labels[p].d !in m
    requires Convertible(nodes, inputs, VarOf(labels[p].d))
    ensures StateOk(nodes, inputs, gates, next, m[labels[p].d := p], labels, pending - {p})
    ensures Kept(gates, m, labels, gates, m[labels[p].d := p], labels)
  {
    FinishedShape(nodes, gates, next, labels, p);
    FinishedWires(nodes, gates, labels, pending, p);
    FinishedSpells(nodes, gates, labels, pending, p);
    FinishedMap(m, labels, pending, p);
    OneMoreConvertible(nodes, inputs, m, labels[p].d, p);
    hide WiredOk, NodesOk, NamesOk, AllSpell, MapOk, OnePerNode, AllConvertible, Convertible, Spells;
  }

  lemma OneMoreConvertible(nodes: Nodes, inputs: set<int>, m: LiteralMap, d: int, g: GateId)
    requires NodesOk(nodes) && AllConvertible(nodes, inputs, m) && Convertible(nodes, inputs, VarOf(d))
    ensures AllConvertible(nodes, inputs, m[d := g])
  {
    hide NodesOk, Convertible;
  }

  lemma FinishedShape(nodes: Nodes, gates: Gates, next: nat, labels: Labels, p: GateId)
    requires NamesOk(nodes, gates, next, labels) && p in gates
    ensures p in labels && GateIsBoolean(gates[p]) && gates[p].op != OUTPUT
  {
    assert ShapeOk(nodes, gates, labels, p);
  }

  lemma FinishedSpells(nodes: Nodes, gates: Gates, labels: Labels, pending: set<GateId>, p: GateId)
    requires AllSpell(nodes, gates, labels, pending) && p in gates && p in labels && Spells(nodes, gates, labels, pending, p)
    ensures AllSpell(nodes, gates, labels, pending - {p})
  {
    hide Spells, Reads;
    var pending' := pending - {p};
    forall g | g in gates && g !in pending'
      ensures Spells(nodes, gates, labels, pending', g)
    {
      assert Spells(nodes, gates, labels, pending, g);
      SpellsStays(nodes, gates, labels, pending, gates, labels, pending', g);
    }
  }

  lemma FinishedMap(m: LiteralMap, labels: Labels, pending: set<GateId>, p: GateId)
    requires MapOk(m, labels, pending) && p in labels && labels[p].LitGate? && labels[p].d !in m
    ensures MapOk(m[labels[p].d := p], labels, pending - {p})
  {
  }

  lemma KeptTransitive(gates: Gates, m: LiteralMap, labels: Labels, gates': Gates, m': LiteralMap, labels': Labels,
                       gates'': Gates, m'': LiteralMap, labels'': Labels)
    requires Kept(gates, m, labels, gates', m', labels') && Kept(gates', m', labels', gates'', m'', labels'')
    ensures Kept(gates, m, labels, gates'', m'', labels'')
  {
  }

  class Conversion {
    const nodes: Nodes
    var gates: Gates
    var nextId: nat
    var literalToGate: LiteralMap
    ghost var inputs: set<int>
    ghost var labels: Labels
    ghost var pending: set<GateId>

    ghost predicate Valid()
      reads this
    {
      StateOk(nodes, inputs, gates, nextId, literalToGate, labels, pending)
    }

    /** The gates being built stand for later variables than l. */
    ghost predicate Above(l: Literal)
      reads this
    {
      IsConstant(l) || LaterOnly(labels, pending, l.varNo)
    }

    constructor (nodes: Nodes)
      requires NodesOk(nodes)
      ensures Valid() && this.nodes == nodes && inputs == {} && pending == {} && literalToGate == map[]
    {
      hide WiredOk, NodesOk;
      this.nodes := nodes;
      gates := map[ONE_GATE := Gate(ONE, 1, 0, [], [Fanout(0, Wire(ZERO_GATE, 0))]),
                   ZERO_GATE := Gate(NOT, 1, 0, [Wire(ONE_GATE, 0)], [])];
      nextId := 3;
      literalToGate := map[];
      inputs := {};
      labels := map[ONE_GATE := TrueGate, ZERO_GATE := FalseGate];
      pending := {};
      new;
      StartIsOk(nodes, gates, labels);
    }

    /** create_input_or_output for an INPUT variable */
    method AddInput(l: Literal) returns (g: GateId)
      requires Valid() && pending == {} && l.varNo in nodes && nodes[l.varNo].kind == InputNode
      requires Dimacs(l) !in literalToGate && Dimacs(Not(l)) !in literalToGate
      modifies this
      ensures Valid() && pending == {} && inputs == old(inputs) + {Dimacs(l)}
      ensures g in gates && g in labels && gates[g].op == INPUT && labels[g] == LitGate(Dimacs(l))
      ensures literalToGate == old(literalToGate)[Dimacs(l) := g]
      ensures Kept(old(gates), old(literalToGate), old(labels), gates, literalToGate, labels)
    {
      hide StateOk, Kept;
      InputKeeps(nodes, inputs, gates, nextId, literalToGate, labels, l);
      g := nextId;
      gates := gates[g := Gate(INPUT, 1, 0, [], [])];
      nextId := nextId + 1;
      literalToGate := literalToGate[Dimacs(l) := g];
      labels := labels[g := LitGate(Dimacs(l))];
      inputs := inputs + {Dimacs(l)};
    }

    /** get_or_create_gate */
    method CreateGate(op: Op, ghost d: int) returns (g: GateId)
      requires Valid() && (op == NOT || op == AND || op == OR || op == XOR)
      requires VarOf(d) in nodes && IsFree(gates, labels, VarOf(d), op == NOT)
      modifies this`gates, this`nextId, this`labels, this`pending
      ensures Valid() && g !in old(gates) && g !in old(pending) && g !in old(labels)
      ensures gates.Keys == old(gates).Keys + {g} && gates[g].op == op && |gates[g].fanins| == Arity(op)
      ensures forall i | 0 <= i < |gates[g].fanins| :: gates[g].fanins[i] == EMPTY
      ensures pending == old(pending) + {g} && labels == old(labels)[g := LitGate(d)]
      ensures Kept(old(gates), literalToGate, old(labels), gates, literalToGate, labels)
    {
      hide StateOk, Kept, IsFree;
      CreateKeeps(nodes, inputs, gates, nextId, literalToGate, labels, pending, op, d);
      g := nextId;
      gates := gates[g := Gate(op, 1, 0, seq(Arity(op), _ => EMPTY), [])];
      nextId := nextId + 1;
      labels := labels[g := LitGate(d)];
      pending := pending + {g};
    }

    /** add_fanin */
    method AddFanin(p: GateId, i: nat, f: GateId)
      requires Valid() && p in pending && p in gates && i < |gates[p].fanins| && f in gates && gates[p].fanins[i] == EMPTY
      modifies this`gates
      ensures Valid() && gates.Keys == old(gates).Keys
      ensures forall g | g in gates :: gates[g].op == old(gates)[g].op
      ensures forall g | g in gates :: gates[g].fanins
                == if g == p then old(gates)[p].fanins[i := Wire(f, 0)] else old(gates)[g].fanins
    {
      hide StateOk;
      FillKeeps(nodes, inputs, gates, nextId, literalToGate, labels, pending, p, i, f);
      gates := ConnectPins(gates, f, 0, Wire(p, i));
    }

    /** The entry in literal_to_gate, with which the gate counts as finished. */
    method Register(d: int, p: GateId)
      requires Valid() && p in pending && p in gates && p in labels && labels[p] == LitGate(d) && d !in literalToGate
      requires Spells(nodes, gates, labels, pending, p) && NodesOk(nodes) && Convertible(nodes, inputs, VarOf(d))
      modifies this`literalToGate, this`pending
      ensures Valid() && pending == old(pending) - {p} && literalToGate == old(literalToGate)[d := p]
      ensures Kept(gates, old(literalToGate), labels, gates, literalToGate, labels)
    {
      hide StateOk, Spells, Kept, Convertible, NodesOk;
      FinishKeeps(nodes, inputs, gates, nextId, literalToGate, labels, pending, p);
      literalToGate := literalToGate[d := p];
      pending := pending - {p};
    }

    /**
     None stands for the exceptions: it comes back exactly if some variable below the literal has
     neither a node nor an input gate.
     */
    method ConvertNode(l: Literal) returns (r: Option<GateId>)
      requires Valid() && Above(l) && NodesOk(nodes)
      modifies this`gates, this`nextId, this`literalToGate, this`labels, this`pending
      ensures r == None <==> !(IsConstant(l) || Convertible(nodes, inputs, l.varNo))
      ensures r != None ==> Valid() && pending == old(pending)
      ensures r != None ==> r.value in gates && r.value in labels && labels[r.value] == LabelOf(l) && r.value !in pending
      ensures r != None ==> Kept(old(gates), old(literalToGate), old(labels), gates, literalToGate, labels)
      decreases l.varNo, 2
    {
      hide StateOk, Spells, Kept, Convertible, NodesOk, IsFree;
      Unchanged(gates, literalToGate, labels);
      if l == ConstLiteral(true) {
        ConstantGates(nodes, inputs, gates, nextId, literalToGate, labels, pending);
        return Some(ONE_GATE);
      }
      if l == ConstLiteral(false) {
        ConstantGates(nodes, inputs, gates, nextId, literalToGate, labels, pending);
        return Some(ZERO_GATE);
      }
      if Dimacs(l) in literalToGate {
        CachedGate(nodes, inputs, gates, nextId, literalToGate, labels, pending, Dimacs(l));
        return Some(literalToGate[Dimacs(l)]);
      }
      if Dimacs(Not(l)) in literalToGate {
        r := NegateCached(l);
        return;
      }
      KnownNames(nodes, l);
      if Dimacs(l) !in nodes && Dimacs(Not(l)) !in nodes {
        NotConvertible(nodes, inputs, l.varNo);
        return None;
      }
      r := ConvertNew(l);
    }

    /** The negated literal has a gate: a NOT is enough. */
    method NegateCached(l: Literal) returns (r: Option<GateId>)
      requires Valid() && Above(l) && NodesOk(nodes) && !IsConstant(l)
      requires Dimacs(l) !in literalToGate && Dimacs(Not(l)) in literalToGate
      modifies this`gates, this`nextId, this`literalToGate, this`labels, this`pending
      ensures r != None && Convertible(nodes, inputs, l.varNo)
      ensures Valid() && pending == old(pending)
      ensures r.value in gates && r.value in labels && labels[r.value] == LabelOf(l) && r.value !in pending
      ensures Kept(old(gates), old(literalToGate), old(labels), gates, literalToGate, labels)
    {
      hide StateOk, Spells, Kept, Convertible, NodesOk, IsFree;
      var d := Dimacs(l);
      var f := literalToGate[Dimacs(Not(l))];
      CachedGate(nodes, inputs, gates, nextId, literalToGate, labels, pending, Dimacs(Not(l)));
      NotIsFree(nodes, inputs, gates, nextId, literalToGate, labels, pending, l);
      var g := CreateGate(NOT, d);
      ghost var created := gates;
      AddFanin(g, 0, f);
      NewNotKept(old(gates), old(literalToGate), old(labels), created, gates, literalToGate, labels, g);
      NotSpells(nodes, gates, labels, pending, g, f, d);
      ghost var before := literalToGate;
      Register(d, g);
      KeptTransitive(old(gates), old(literalToGate), old(labels), gates, before, labels, gates, literalToGate, labels);
      r := Some(g);
    }

    /** A node without a gate: its gate, the gates of its operands and, where needed, a NOT. */
    method ConvertNew(l: Literal) returns (r: Option<GateId>)
      requires Valid() && Above(l) && NodesOk(nodes) && !IsConstant(l)
      requires Dimacs(l) !in literalToGate && Dimacs(Not(l)) !in literalToGate
      requires Dimacs(l) in nodes || Dimacs(Not(l)) in nodes
      modifies this`gates, this`nextId, this`literalToGate, this`labels, this`pending
      ensures r == None <==> !Convertible(nodes, inputs, l.varNo)
      ensures r != None ==> Valid() && pending == old(pending)
      ensures r != None ==> r.value in gates && r.value in labels && labels[r.value] == LabelOf(l) && r.value !in pending
      ensures r != None ==> Kept(old(gates), old(literalToGate), old(labels), gates, literalToGate, labels)
      decreases l.varNo, 1
    {
      hide StateOk, Spells, Kept, Convertible, NodesOk, IsFree, LaterOnly;
      var isNegated := Dimacs(l) !in nodes;
      var node := nodes[if isNegated then Dimacs(Not(l)) else Dimacs(l)];
      NewNodeFacts(nodes, inputs, gates, nextId, literalToGate, labels, pending, l);
      if node.kind == InputNode {
        return None;
      }
      var g := CreateGate(OpOf(node.kind), l.varNo);
      LaterMore(old(labels), old(pending), l.varNo, g);
      var filled := FillOperand(l.varNo, g, 0, node.left, old(gates), old(literalToGate), old(labels), old(pending));
      if !filled { return None; }
      filled := FillOperand(l.varNo, g, 1, node.right, old(gates), old(literalToGate), old(labels), old(pending));
      if !filled { return None; }
      NodeSpells(nodes, gates, labels, pending, g, l.varNo);
      KeyIsFree(nodes, inputs, gates, nextId, literalToGate, labels, pending, old(pending), g, l.varNo);
      if isNegated {
        r := FinishNegated(l, g, old(gates), old(literalToGate), old(labels));
      } else {
        ghost var before := literalToGate;
        Register(Dimacs(l), g);
        KeptTransitive(old(gates), old(literalToGate), old(labels), gates, before, labels, gates, literalToGate, labels);
        r := Some(g);
      }
    }

    /** add_fanin of the converted operand; the gate g of variable k is being built. */
    method FillOperand(k: nat, g: GateId, i: nat, operand: Literal,
                       ghost gates0: Gates, ghost map0: LiteralMap, ghost labels0: Labels, ghost pending0: set<GateId>)
      returns (filled: bool)
      requires Valid() && NodesOk(nodes) && operand.varNo < k < CONST_VAR
      requires g !in gates0 && g !in pending0 && pending == pending0 + {g} && g in gates && i < |gates[g].fanins| <= 2
      requires g in labels && labels[g] == LitGate(k) && LaterOnly(labels, pending0, k) && gates[g].fanins[i] == EMPTY
      requires Kept(gates0, map0, labels0, gates, literalToGate, labels)
      requires i == 1 ==> Reads(gates, labels, pending, g, 0, LabelOfFirst(g))
      modifies this`gates, this`nextId, this`literalToGate, this`labels, this`pending
      ensures !filled <==> !Convertible(nodes, inputs, operand.varNo)
      ensures filled ==> Valid() && pending == old(pending) && LaterOnly(labels, pending0, k)
      ensures filled ==> g in gates && g in labels && labels[g] == LitGate(k) && gates[g].op == old(gates)[g].op
      ensures filled ==> |gates[g].fanins| == |old(gates)[g].fanins|
      ensures filled ==> forall j | 0 <= j < |gates[g].fanins| && j != i :: gates[g].fanins[j] == old(gates)[g].fanins[j]
      ensures filled ==> Reads(gates, labels, pending, g, i, LitGate(Dimacs(operand)))
      ensures filled && i == 1 ==> Reads(gates, labels, pending, g, 0, old(LabelOfFirst(g)))
      ensures filled ==> Kept(gates0, map0, labels0, gates, literalToGate, labels)
      decreases k, 0
    {
      hide StateOk, Spells, Kept, Convertible, NodesOk, IsFree, LaterOnly;
      LaterLess(labels, pending0, k, g, operand.varNo);
      ghost var gates1, map1, labels1 := gates, literalToGate, labels;
      var r := ConvertNode(operand);
      if r == None { return false; }
      GateStays(gates1, map1, labels1, gates, literalToGate, labels, g);
      if i == 1 {
        GateStays(gates1, map1, labels1, gates, literalToGate, labels, gates1[g].fanins[0].gate);
      }
      LaterStays(gates1, map1, labels1, gates, literalToGate, labels, pending0, k);
      ghost var gates2 := gates;
      AddFanin(g, i, r.value);
      KeptByFill(gates0, map0, labels0, gates1, map1, labels1, gates2, literalToGate, labels, gates, g);
      return true;
    }

    /** The label of the gate that slot 0 of g reads. */
    ghost function LabelOfFirst(g: GateId): (meant: Label)
      reads this
    {
      if g in gates && gates[g].fanins != [] && gates[g].fanins[0].gate in labels then labels[gates[g].fanins[0].gate]
      else TrueGate
    }

    /** Both signs get their entries. */
    method FinishNegated(l: Literal, g: GateId, ghost gates0: Gates, ghost map0: LiteralMap, ghost labels0: Labels)
      returns (r: Option<GateId>)
      requires Valid() && NodesOk(nodes) && !IsConstant(l) && l.sign && 0 < l.varNo && l.varNo in nodes
      requires g in pending && g in gates && g in labels && labels[g] == LitGate(l.varNo) && g !in gates0
      requires Spells(nodes, gates, labels, pending, g) && Convertible(nodes, inputs, l.varNo)
      requires Dimacs(l) !in literalToGate && Dimacs(Not(l)) !in literalToGate && IsFree(gates, labels, l.varNo, true)
      requires Kept(gates0, map0, labels0, gates, literalToGate, labels)
      modifies this`gates, this`nextId, this`literalToGate, this`labels, this`pending
      ensures r != None && Valid() && pending == old(pending) - {g}
      ensures r.value in gates && r.value in labels && labels[r.value] == LabelOf(l) && r.value !in pending
      ensures Kept(gates0, map0, labels0, gates, literalToGate, labels)
    {
      hide StateOk, Spells, Kept, Convertible, NodesOk, IsFree;
      Register(Dimacs(Not(l)), g);
      KeptTransitive(gates0, map0, labels0, gates, old(literalToGate), labels, gates, literalToGate, labels);
      ghost var gates1, map1, labels1 := gates, literalToGate, labels;
      var notGate := CreateGate(NOT, Dimacs(l));
      KeptTransitive(gates0, map0, labels0, gates1, map1, labels1, gates, map1, labels);
      ghost var gates2 := gates;
      AddFanin(notGate, 0, g);
      NewNotKept(gates0, map0, labels0, gates2, gates, map1, labels, notGate);
      NotSpells(nodes, gates, labels, pending, notGate, g, Dimacs(l));
      Register(Dimacs(l), notGate);
      KeptTransitive(gates0, map0, labels0, gates, map1, labels, gates, literalToGate, labels);
      r := Some(notGate);
    }
  }

  lemma Unchanged(gates: Gates, m: LiteralMap, labels: Labels)
    ensures Kept(gates, m, labels, gates, m, labels)
  {
  }

  lemma ConstantGates(nodes: Nodes, inputs: set<int>, gates: Gates, next: nat, m: LiteralMap, labels: Labels, pending: set<GateId>)
    requires StateOk(nodes, inputs, gates, next, m, labels, pending)
    ensures ONE_GATE in gates && ONE_GATE in labels && labels[ONE_GATE] == TrueGate && ONE_GATE !in pending
    ensures ZERO_GATE in gates && ZERO_GATE in labels && labels[ZERO_GATE] == FalseGate && ZERO_GATE !in pending
  {
    assert ShapeOk(nodes, gates, labels, ONE_GATE) && ShapeOk(nodes, gates, labels, ZERO_GATE);
  }

  lemma CachedGate(nodes: Nodes, inputs: set<int>, gates: Gates, next: nat, m: LiteralMap, labels: Labels, pending: set<GateId>, d: int)
    requires StateOk(nodes, inputs, gates, next, m, labels, pending) && d in m
    ensures m[d] in gates && m[d] in labels && labels[m[d]] == LitGate(d) && m[d] !in pending
    ensures NodesOk(nodes) && Convertible(nodes, inputs, VarOf(d))
  {
    hide WiredOk, NodesOk, AllSpell, OnePerNode, Convertible;
  }

  lemma KnownNames(nodes: Nodes, l: Literal)
    requires NodesOk(nodes)
    ensures (Dimacs(l) in nodes || Dimacs(Not(l)) in nodes) <==> l.varNo in nodes
  {
  }

  lemma NotConvertible(nodes: Nodes, inputs: set<int>, k: nat)
    requires NodesOk(nodes) && k !in nodes
    ensures !Convertible(nodes, inputs, k)
  {
  }

  /** No finished NOT for l's variable: it would be cached, or would read a gate that is. */
  lemma NotIsFree(nodes: Nodes, inputs: set<int>, gates: Gates, next: nat, m: LiteralMap, labels: Labels, pending: set<GateId>, l: Literal)
    requires StateOk(nodes, inputs, gates, next, m, labels, pending) && !IsConstant(l)
    requires Dimacs(l) !in m && Dimacs(Not(l)) in m
    requires LaterOnly(labels, pending, l.varNo)
    ensures IsFree(gates, labels, VarOf(Dimacs(l)), true) && VarOf(Dimacs(l)) == l.varNo && l.varNo in nodes && l.varNo != 0
  {
    hide WiredOk, NodesOk, OnePerNode, Convertible;
    assert VarOf(Dimacs(Not(l))) in nodes by {
      hide AllSpell;
      assert Convertible(nodes, inputs, VarOf(Dimacs(Not(l))));
      ConvertibleIsNode(nodes, inputs, VarOf(Dimacs(Not(l))));
    }
    forall g | g in gates && labels[g].LitGate? && VarOf(labels[g].d) == l.varNo
      ensures gates[g].op != NOT
    {
      assert g !in pending;
      assert Spells(nodes, gates, labels, pending, g);
    }
  }

  lemma ConvertibleIsNode(nodes: Nodes, inputs: set<int>, k: nat)
    requires NodesOk(nodes) && Convertible(nodes, inputs, k)
    ensures k in nodes
  {
  }

  lemma NotSpells(nodes: Nodes, gates: Gates, labels: Labels, pending: set<GateId>, g: GateId, f: GateId, d: int)
    requires g in gates && g in labels && f in gates && f in labels && f !in pending && d != 0
    requires gates[g].op == NOT && gates[g].fanins == [Wire(f, 0)] && labels[g] == LitGate(d) && labels[f] == LitGate(-d)
    ensures Spells(nodes, gates, labels, pending, g)
  {
  }

  lemma NewNodeFacts(nodes: Nodes, inputs: set<int>, gates: Gates, next: nat, m: LiteralMap, labels: Labels, pending: set<GateId>, l: Literal)
    requires StateOk(nodes, inputs, gates, next, m, labels, pending) && !IsConstant(l)
    requires Dimacs(l) !in m && Dimacs(Not(l)) !in m && (Dimacs(l) in nodes || Dimacs(Not(l)) in nodes)
    requires LaterOnly(labels, pending, l.varNo)
    ensures l.varNo in nodes && l.varNo < CONST_VAR
    ensures nodes[if Dimacs(l) !in nodes then Dimacs(Not(l)) else Dimacs(l)] == nodes[l.varNo]
    ensures var node := nodes[l.varNo];
            if node.kind == InputNode then !Convertible(nodes, inputs, l.varNo)
            else
              && node.left.varNo < l.varNo && node.right.varNo < l.varNo && 0 < l.varNo
              && (l.sign <==> Dimacs(l) !in nodes)
              && (Convertible(nodes, inputs, l.varNo)
                  <==> Convertible(nodes, inputs, node.left.varNo) && Convertible(nodes, inputs, node.right.varNo))
    ensures IsFree(gates, labels, l.varNo, false)
  {
    assert NodeOk(l.varNo, nodes[l.varNo]);
    hide WiredOk, NodesOk, OnePerNode, AllSpell, NamesOk;
    forall g | g in gates && labels[g].LitGate? && VarOf(labels[g].d) == l.varNo
      ensures gates[g].op == NOT
    {
      assert g !in pending;
      assert labels[g].d in m;
    }
  }

  lemma GateStays(gates: Gates, m: LiteralMap, labels: Labels, gates': Gates, m': LiteralMap, labels': Labels, g: GateId)
    requires Kept(gates, m, labels, gates', m', labels') && g in gates && g in labels
    ensures g in gates' && g in labels' && gates'[g].op == gates[g].op && gates'[g].fanins == gates[g].fanins
    ensures labels'[g] == labels[g]
  {
  }

  /** Conversions below, and filling a slot of the new gate p, keep the old gates. */
  lemma KeptByFill(gates0: Gates, m0: LiteralMap, labels0: Labels, gates1: Gates, m1: LiteralMap, labels1: Labels,
                   gates2: Gates, m2: LiteralMap, labels2: Labels, gates3: Gates, p: GateId)
    requires Kept(gates0, m0, labels0, gates1, m1, labels1) && Kept(gates1, m1, labels1, gates2, m2, labels2)
    requires p !in gates0 && gates3.Keys == gates2.Keys
    requires forall g | g in gates2 && g != p :: gates3[g].op == gates2[g].op && gates3[g].fanins == gates2[g].fanins
    ensures Kept(gates0, m0, labels0, gates3, m2, labels2)
  {
  }

  lemma NodeSpells(nodes: Nodes, gates: Gates, labels: Labels, pending: set<GateId>, g: GateId, k: nat)
    requires k in nodes && nodes[k].kind != InputNode && g in gates && g in labels && labels[g] == LitGate(k)
    requires gates[g].op == OpOf(nodes[k].kind)
    requires Reads(gates, labels, pending, g, 0, LitGate(Dimacs(nodes[k].left)))
    requires Reads(gates, labels, pending, g, 1, LitGate(Dimacs(nodes[k].right)))
    ensures Spells(nodes, gates, labels, pending, g)
  {
  }

  /** A finished NOT reads a finished gate for the other sign, which is no NOT. */
  lemma ReadByNot(nodes: Nodes, inputs: set<int>, gates: Gates, next: nat, m: LiteralMap, labels: Labels, pending: set<GateId>, h: GateId)
    returns (f: GateId)
    requires StateOk(nodes, inputs, gates, next, m, labels, pending)
    requires h in gates && h in labels && h !in pending && gates[h].op == NOT && labels[h].LitGate?
    ensures f in gates && f in labels && f !in pending && gates[f].op != NOT && labels[f] == LitGate(-labels[h].d)
  {
    hide WiredOk, NodesOk, Convertible, OnePerNode;
    assert Spells(nodes, gates, labels, pending, h);
    f := gates[h].fanins[0].gate;
    TwoRoles(gates, labels, f, h);
  }

  lemma TwoRoles(gates: Gates, labels: Labels, g: GateId, h: GateId)
    requires OnePerNode(gates, labels) && g in gates && g in labels && h in gates && h in labels && g != h
    requires labels[g].LitGate? && labels[h].LitGate? && VarOf(labels[g].d) == VarOf(labels[h].d)
    ensures (gates[g].op == NOT) != (gates[h].op == NOT)
  {
    assert !SameRole(gates, labels, g, h);
  }

  lemma OnlyOne(gates: Gates, labels: Labels, g: GateId, h: GateId)
    requires OnePerNode(gates, labels) && g in gates && g in labels && h in gates && h in labels && SameRole(gates, labels, g, h)
    ensures g == h
  {
  }

  /** While the gate of variable k is built, nothing else stands for it. */
  lemma KeyIsFree(nodes: Nodes, inputs: set<int>, gates: Gates, next: nat, m: LiteralMap, labels: Labels, pending: set<GateId>,
                  pending0: set<GateId>, g: GateId, k: nat)
    requires StateOk(nodes, inputs, gates, next, m, labels, pending) && g in gates && g in labels
    requires pending == pending0 + {g} && g !in pending0
    requires labels[g] == LitGate(k) && gates[g].op != NOT && 0 < k && LaterOnly(labels, pending0, k)
    ensures k !in m && Dimacs(Literal(k, true)) !in m && IsFree(gates, labels, k, true)
  {
    hide WiredOk, NodesOk, Convertible, NamesOk, AllSpell;
    assert OnePerNode(gates, labels) && gates.Keys == labels.Keys;
    hide OnePerNode;
    forall h | h in gates && labels[h].LitGate? && VarOf(labels[h].d) == k
      ensures h == g
    {
      if gates[h].op != NOT {
        OnlyOne(gates, labels, h, g);
      } else {
        var f := ReadByNot(nodes, inputs, gates, next, m, labels, pending, h);
        OnlyOne(gates, labels, f, g);
      }
    }
  }

  lemma NewNotKept(gates0: Gates, m0: LiteralMap, labels0: Labels, gates2: Gates, gates3: Gates,
                   m: LiteralMap, labels: Labels, p: GateId)
    requires Kept(gates0, m0, labels0, gates2, m, labels) && p !in gates0 && gates3.Keys == gates2.Keys
    requires forall g | g in gates2 && g != p :: gates3[g].op == gates2[g].op && gates3[g].fanins == gates2[g].fanins
    ensures Kept(gates0, m0, labels0, gates3, m, labels)
  {
  }

  lemma StartIsOk(nodes: Nodes, gates: Gates, labels: Labels)
    requires NodesOk(nodes)
    requires gates == map[ONE_GATE := Gate(ONE, 1, 0, [], [Fanout(0, Wire(ZERO_GATE, 0))]),
                          ZERO_GATE := Gate(NOT, 1, 0, [Wire(ONE_GATE, 0)], [])]
    requires labels == map[ONE_GATE := TrueGate, ZERO_GATE := FalseGate]
    ensures StateOk(nodes, {}, gates, 3, map[], labels, {})
  {
    StartWires(gates);
    hide WiredOk;
  }

  lemma StartWires(gates: Gates)
    requires gates == map[ONE_GATE := Gate(ONE, 1, 0, [], [Fanout(0, Wire(ZERO_GATE, 0))]),
                          ZERO_GATE := Gate(NOT, 1, 0, [Wire(ONE_GATE, 0)], [])]
    ensures WiredOk(gates, {})
  {
    assert gates[ONE_GATE].fanouts[0] == Fanout(0, Wire(ZERO_GATE, 0));
  }

  lemma InputKeeps(nodes: Nodes, inputs: set<int>, gates: Gates, next: nat, m: LiteralMap, labels: Labels, l: Literal)
    requires StateOk(nodes, inputs, gates, next, m, labels, {}) && l.varNo in nodes && nodes[l.varNo].kind == InputNode
    requires Dimacs(l) !in m && Dimacs(Not(l)) !in m
    ensures var gates', m', labels' := gates[next := Gate(INPUT, 1, 0, [], [])], m[Dimacs(l) := next], labels[next := LitGate(Dimacs(l))];
            && StateOk(nodes, inputs + {Dimacs(l)}, gates', next + 1, m', labels', {})
            && Kept(gates, m, labels, gates', m', labels')
  {
    var gates', m', labels' := gates[next := Gate(INPUT, 1, 0, [], [])], m[Dimacs(l) := next], labels[next := LitGate(Dimacs(l))];
    InputWires(gates, next);
    InputNames(nodes, gates, next, labels, Dimacs(l));
    InputSpells(nodes, gates, next, labels, Dimacs(l));
    InputOnce(nodes, inputs, gates, next, m, labels, l);
    InputConvertible(nodes, inputs, m, l, next);
    InputMap(m, labels, Dimacs(l), next);
    hide WiredOk, NodesOk, NamesOk, AllSpell, OnePerNode, AllConvertible, MapOk;
  }

  lemma InputMap(m: LiteralMap, labels: Labels, d: int, g: GateId)
    requires MapOk(m, labels, {}) && g !in labels && d !in m
    ensures MapOk(m[d := g], labels[g := LitGate(d)], {})
  {
  }

  lemma InputWires(gates: Gates, next: nat)
    requires WiredOk(gates, {}) && next !in gates && 0 < next
    ensures WiredOk(gates[next := Gate(INPUT, 1, 0, [], [])], {})
  {
    var gates' := gates[next := Gate(INPUT, 1, 0, [], [])];
    forall g, i: nat | g in gates' && i < |gates'[g].fanins|
      ensures SlotOk(gates', {}, g, i)
    {
      assert g in gates ==> SlotOk(gates, {}, g, i);
    }
    forall g, i: nat | g in gates' && i < |gates'[g].fanouts|
      ensures FanoutMirrored(gates', g, i)
    {
      assert g in gates ==> FanoutMirrored(gates, g, i);
    }
  }

  lemma InputNames(nodes: Nodes, gates: Gates, next: nat, labels: Labels, d: int)
    requires NamesOk(nodes, gates, next, labels) && VarOf(d) in nodes
    ensures NamesOk(nodes, gates[next := Gate(INPUT, 1, 0, [], [])], next + 1, labels[next := LitGate(d)])
    ensures next !in gates
  {
    var gates', labels' := gates[next := Gate(INPUT, 1, 0, [], [])], labels[next := LitGate(d)];
    forall g | g in gates'
      ensures ShapeOk(nodes, gates', labels', g)
    {
      if g != next {
        assert ShapeOk(nodes, gates, labels, g);
      }
    }
  }

  lemma InputSpells(nodes: Nodes, gates: Gates, next: nat, labels: Labels, d: int)
    requires AllSpell(nodes, gates, labels, {}) && next !in gates
    requires VarOf(d) in nodes && nodes[VarOf(d)].kind == InputNode
    ensures AllSpell(nodes, gates[next := Gate(INPUT, 1, 0, [], [])], labels[next := LitGate(d)], {})
  {
    var gates', labels' := gates[next := Gate(INPUT, 1, 0, [], [])], labels[next := LitGate(d)];
    forall g | g in gates'
      ensures Spells(nodes, gates', labels', {}, g)
    {
      if g != next {
        assert Spells(nodes, gates, labels, {}, g);
        SpellsStays(nodes, gates, labels, {}, gates', labels', {}, g);
      }
    }
  }

  lemma InputOnce(nodes: Nodes, inputs: set<int>, gates: Gates, next: nat, m: LiteralMap, labels: Labels, l: Literal)
    requires StateOk(nodes, inputs, gates, next, m, labels, {}) && next !in gates
    requires Dimacs(l) !in m && Dimacs(Not(l)) !in m
    ensures OnePerNode(gates[next := Gate(INPUT, 1, 0, [], [])], labels[next := LitGate(Dimacs(l))])
  {
    hide WiredOk, NodesOk, NamesOk, AllSpell, AllConvertible;
    var gates', labels' := gates[next := Gate(INPUT, 1, 0, [], [])], labels[next := LitGate(Dimacs(l))];
    forall g | g in gates && labels[g].LitGate?
      ensures VarOf(labels[g].d) != l.varNo
    {
      assert labels[g].d in m;
    }
    forall g, h | g in gates' && h in gates' && SameRole(gates', labels', g, h)
      ensures g == h
    {
      assert g in gates && h in gates ==> SameRole(gates, labels, g, h);
    }
  }

  lemma InputConvertible(nodes: Nodes, inputs: set<int>, m: LiteralMap, l: Literal, g: GateId)
    requires NodesOk(nodes) && AllConvertible(nodes, inputs, m) && l.varNo in nodes && nodes[l.varNo].kind == InputNode
    ensures AllConvertible(nodes, inputs + {Dimacs(l)}, m[Dimacs(l) := g])
  {
    forall d | d in m
      ensures Convertible(nodes, inputs + {Dimacs(l)}, VarOf(d))
    {
      MoreInputs(nodes, inputs, inputs + {Dimacs(l)}, VarOf(d));
    }
    assert NodeOk(l.varNo, nodes[l.varNo]);
  }

  lemma {:induction false} MoreInputs(nodes: Nodes, inputs: set<int>, inputs': set<int>, k: nat)
    requires NodesOk(nodes) && Convertible(nodes, inputs, k) && inputs <= inputs'
    ensures Convertible(nodes, inputs', k)
    decreases k
  {
    assert NodeOk(k, nodes[k]);
    if nodes[k].kind != InputNode {
      MoreInputs(nodes, inputs, inputs', nodes[k].left.varNo);
      MoreInputs(nodes, inputs, inputs', nodes[k].right.varNo);
    }
  }

  // ----- what the gates compute -----

  /** The value of a DIMACS name: its sign counts only for variables other than 0. */
  ghost function LabelValue(nodes: Nodes, meant: Label, x: Inputs): (b: bool)
    requires NodesOk(nodes) && (meant.LitGate? ==> VarOf(meant.d) in nodes)
  {
    match meant
    case TrueGate => true
    case FalseGate => false
    case LitGate(d) => VarValue(nodes, VarOf(d), x, true) != (d < 0)
  }

  lemma ValueOfLabel(nodes: Nodes, l: Literal, x: Inputs)
    requires NodesOk(nodes) && Known(nodes, l)
    ensures LabelOf(l).LitGate? ==> VarOf(LabelOf(l).d) in nodes
    ensures LabelValue(nodes, LabelOf(l), x) == Value(nodes, l, x, true)
  {
  }

  ghost predicate GateHolds(gates: Gates, v: Valuation, g: GateId) {
    g in gates && GateIsBoolean(gates[g]) && Holds(gates[g], g, v)
  }

  /** v gives the finished gates the values they have when variable k's input gate carries x(k). */
  ghost predicate RunsOn(nodes: Nodes, gates: Gates, labels: Labels, pending: set<GateId>, x: Inputs, v: Valuation)
    requires NodesOk(nodes) && gates.Keys == labels.Keys
  {
    forall g | g in gates && g !in pending ::
      GateHolds(gates, v, g)
      && (gates[g].op == INPUT && labels[g].LitGate? && VarOf(labels[g].d) in nodes ==> v(g) == LabelValue(nodes, labels[g], x))
  }

  ghost function Rank(gates: Gates, labels: Labels, g: GateId): (r: nat)
    requires g in gates && g in labels
  {
    match labels[g]
    case TrueGate => 0
    case FalseGate => 1
    case LitGate(d) => 2 + 2 * VarOf(d) + if gates[g].op == NOT then 1 else 0
  }

  /** Each finished gate has the value of its label, whatever valuation the circuit has. */
  lemma {:induction false} GatesHaveLabelValues(nodes: Nodes, inputs: set<int>, gates: Gates, next: nat, m: LiteralMap, labels: Labels,
                                                pending: set<GateId>, x: Inputs, v: Valuation, g: GateId)
    requires StateOk(nodes, inputs, gates, next, m, labels, pending) && RunsOn(nodes, gates, labels, pending, x, v)
    requires g in gates && g in labels && g !in pending
    ensures labels[g].LitGate? ==> VarOf(labels[g].d) in nodes
    ensures v(g) == LabelValue(nodes, labels[g], x)
    decreases Rank(gates, labels, g)
  {
    StateAt(nodes, inputs, gates, next, m, labels, pending, g);
    assert GateHolds(gates, v, g);
    hide StateOk, RunsOn, NodesOk;
    if gates[g].op == NOT {
      if labels[g].LitGate? {
        NotReadsPlain(nodes, inputs, gates, next, m, labels, pending, g);
      }
      GatesHaveLabelValues(nodes, inputs, gates, next, m, labels, pending, x, v, gates[g].fanins[0].gate);
    } else if gates[g].op != ONE && gates[g].op != INPUT {
      NodeIn(nodes, labels[g].d);
      OperandValues(nodes, labels[g].d, x);
      GatesHaveLabelValues(nodes, inputs, gates, next, m, labels, pending, x, v, gates[g].fanins[0].gate);
      GatesHaveLabelValues(nodes, inputs, gates, next, m, labels, pending, x, v, gates[g].fanins[1].gate);
    } else if gates[g].op == INPUT {
      InputValue(nodes, gates, labels, pending, x, v, g);
    }
  }

  lemma InputValue(nodes: Nodes, gates: Gates, labels: Labels, pending: set<GateId>, x: Inputs, v: Valuation, g: GateId)
    requires NodesOk(nodes) && gates.Keys == labels.Keys && RunsOn(nodes, gates, labels, pending, x, v)
    requires g in gates && g !in pending && gates[g].op == INPUT && labels[g].LitGate? && VarOf(labels[g].d) in nodes
    ensures v(g) == LabelValue(nodes, labels[g], x)
  {
  }

  lemma StateAt(nodes: Nodes, inputs: set<int>, gates: Gates, next: nat, m: LiteralMap, labels: Labels, pending: set<GateId>, g: GateId)
    requires StateOk(nodes, inputs, gates, next, m, labels, pending) && g in gates && g !in pending
    ensures NodesOk(nodes) && gates.Keys == labels.Keys && ShapeOk(nodes, gates, labels, g) && Spells(nodes, gates, labels, pending, g)
  {
    hide WiredOk, NodesOk, ShapeOk, Spells;
  }

  lemma NotReadsPlain(nodes: Nodes, inputs: set<int>, gates: Gates, next: nat, m: LiteralMap, labels: Labels, pending: set<GateId>, g: GateId)
    requires StateOk(nodes, inputs, gates, next, m, labels, pending)
    requires g in gates && g in labels && g !in pending && gates[g].op == NOT && labels[g].LitGate?
    ensures gates[g].fanins != [] && gates[g].fanins[0].gate in gates && gates[gates[g].fanins[0].gate].op != NOT
  {
    hide WiredOk, NodesOk, Convertible, OnePerNode;
    assert Spells(nodes, gates, labels, pending, g);
    TwoRoles(gates, labels, gates[g].fanins[0].gate, g);
  }

  lemma NodeIn(nodes: Nodes, k: int)
    requires NodesOk(nodes) && k in nodes
    ensures 0 <= k && NodeOk(k, nodes[k])
  {
  }

  lemma OperandValues(nodes: Nodes, k: nat, x: Inputs)
    requires NodesOk(nodes) && k in nodes && nodes[k].kind != InputNode
    ensures nodes[k].left.varNo in nodes && nodes[k].right.varNo in nodes && nodes[k].left.varNo < k && nodes[k].right.varNo < k
    ensures VarValue(nodes, k, x, true)
            == Apply(nodes[k].kind, LabelValue(nodes, LitGate(Dimacs(nodes[k].left)), x),
                     LabelValue(nodes, LitGate(Dimacs(nodes[k].right)), x))
  {
    assert NodeOk(k, nodes[k]);
  }

  /** There is such a valuation: the one that gives each gate the value of its label. */
  lemma LabelValuesRun(nodes: Nodes, inputs: set<int>, gates: Gates, next: nat, m: LiteralMap, labels: Labels,
                       pending: set<GateId>, x: Inputs, v: Valuation)
    requires StateOk(nodes, inputs, gates, next, m, labels, pending)
    requires forall g | g in labels ::
               (labels[g].LitGate? ==> VarOf(labels[g].d) in nodes) && v(g) == LabelValue(nodes, labels[g], x)
    ensures RunsOn(nodes, gates, labels, pending, x, v)
  {
    hide WiredOk, NodesOk, NamesOk, AllSpell, OnePerNode, AllConvertible;
    assert gates.Keys == labels.Keys by { NamedGates(nodes, inputs, gates, next, m, labels, pending); }
    forall g | g in gates && g !in pending
      ensures GateHolds(gates, v, g)
    {
      StateAt(nodes, inputs, gates, next, m, labels, pending, g);
      if gates[g].op != NOT && gates[g].op != ONE && gates[g].op != INPUT {
        NodeIn(nodes, labels[g].d);
        OperandValues(nodes, labels[g].d, x);
      }
    }
  }

  lemma NamedGates(nodes: Nodes, inputs: set<int>, gates: Gates, next: nat, m: LiteralMap, labels: Labels, pending: set<GateId>)
    requires StateOk(nodes, inputs, gates, next, m, labels, pending)
    ensures gates.Keys == labels.Keys
  {
  }

  // ----- the circuit as such -----

  ghost function RankOf(gates: Gates, labels: Labels): (rank: GateId -> nat) {
    (g: GateId) => if g in gates && g in labels then Rank(gates, labels, g) else 0
  }

  /** Between conversions the gates are a Boolean circuit without cycles. */
  lemma ConvertedIsCircuit(nodes: Nodes, inputs: set<int>, gates: Gates, next: nat, m: LiteralMap, labels: Labels)
    requires StateOk(nodes, inputs, gates, next, m, labels, {})
    ensures IsBoolean(gates) && Ranked(gates, RankOf(gates, labels))
  {
    ConvertedIsBoolean(nodes, inputs, gates, next, m, labels);
    hide StateOk, IsBoolean;
    forall g, w | g in gates && w in gates[g].fanins
      ensures w.gate in gates && RankOf(gates, labels)(w.gate) < RankOf(gates, labels)(g)
    {
      FaninIsLower(nodes, inputs, gates, next, m, labels, g, w);
    }
  }

  lemma ConvertedIsBoolean(nodes: Nodes, inputs: set<int>, gates: Gates, next: nat, m: LiteralMap, labels: Labels)
    requires StateOk(nodes, inputs, gates, next, m, labels, {})
    ensures IsBoolean(gates)
  {
    hide NodesOk, AllSpell, MapOk, OnePerNode, AllConvertible, Convertible;
    forall g | g in gates
      ensures GateIsBoolean(gates[g])
    {
      assert ShapeOk(nodes, gates, labels, g);
    }
    forall g, i: nat | g in gates && i < |gates[g].fanins|
      ensures FaninMirrored(gates, g, i)
    {
      assert SlotOk(gates, {}, g, i);
    }
  }

  lemma FaninIsLower(nodes: Nodes, inputs: set<int>, gates: Gates, next: nat, m: LiteralMap, labels: Labels, g: GateId, w: Wire)
    requires StateOk(nodes, inputs, gates, next, m, labels, {}) && g in gates && w in gates[g].fanins
    ensures g in labels && w.gate in gates && w.gate in labels && Rank(gates, labels, w.gate) < Rank(gates, labels, g)
  {
    StateAt(nodes, inputs, gates, next, m, labels, {}, g);
    var i: nat :| i < |gates[g].fanins| && gates[g].fanins[i] == w;
    if gates[g].op == NOT {
      if labels[g].LitGate? {
        NotReadsPlain(nodes, inputs, gates, next, m, labels, {}, g);
      }
    } else {
      hide StateOk;
      NodeIn(nodes, labels[g].d);
    }
  }

  /** The input gates carry the values of their variables. */
  ghost predicate CarriesInputs(nodes: Nodes, gates: Gates, labels: Labels, x: Inputs, v: Valuation)
    requires NodesOk(nodes)
  {
    forall g | g in gates && gates[g].op == INPUT && g in labels && labels[g].LitGate? && VarOf(labels[g].d) in nodes ::
      v(g) == LabelValue(nodes, labels[g], x)
  }

  /** A consistent valuation of the circuit is a run. */
  lemma ConsistentRuns(nodes: Nodes, inputs: set<int>, gates: Gates, next: nat, m: LiteralMap, labels: Labels, x: Inputs, v: Valuation)
    requires StateOk(nodes, inputs, gates, next, m, labels, {}) && IsBoolean(gates) && Consistent(gates, v)
    requires NodesOk(nodes) && CarriesInputs(nodes, gates, labels, x, v)
    ensures gates.Keys == labels.Keys && RunsOn(nodes, gates, labels, {}, x, v)
  {
    NamedGates(nodes, inputs, gates, next, m, labels, {});
    hide StateOk, NodesOk, Mirrored, LabelValue;
  }

  // ----- the lost sign of variable 0 -----

  /** l is one of the literals that the conversion of top looks at. */
  ghost predicate Below(nodes: Nodes, top: Literal, l: Literal)
    requires NodesOk(nodes)
    decreases top.varNo
  {
    || top == l
    || (!IsConstant(top) && top.varNo in nodes && nodes[top.varNo].kind != InputNode
        && (assert NodeOk(top.varNo, nodes[top.varNo]);
            Below(nodes, nodes[top.varNo].left, l) || Below(nodes, nodes[top.varNo].right, l)))
  }

  const NEGATED_ZERO: Literal := Literal(0, true)

  lemma {:induction false} SignMattersOnlyThere(nodes: Nodes, top: Literal, x: Inputs)
    requires NodesOk(nodes) && Known(nodes, top) && !Below(nodes, top, NEGATED_ZERO)
    ensures Value(nodes, top, x, true) == Meaning(nodes, top, x)
    decreases top.varNo
  {
    if !IsConstant(top) && nodes[top.varNo].kind != InputNode {
      var node := nodes[top.varNo];
      assert NodeOk(top.varNo, node);
      SignMattersOnlyThere(nodes, node.left, x);
      SignMattersOnlyThere(nodes, node.right, x);
      OperandIsValue(nodes, top.varNo, node.left, x);
      OperandIsValue(nodes, top.varNo, node.right, x);
    }
  }

  lemma OperandIsValue(nodes: Nodes, k: nat, l: Literal, x: Inputs)
    requires NodesOk(nodes) && k in nodes && l.varNo < k
    ensures Known(nodes, l) && !IsConstant(l)
    ensures OperandValue(nodes, k, l, x, true) == Value(nodes, l, x, true)
    ensures OperandValue(nodes, k, l, x, false) == Meaning(nodes, l, x)
  {
    assert NodeOk(k, nodes[k]);
  }

  lemma {:induction false} BelowIsKnown(nodes: Nodes, top: Literal, l: Literal)
    requires NodesOk(nodes) && Known(nodes, top) && Below(nodes, top, l)
    ensures Known(nodes, l)
    decreases top.varNo
  {
    if top != l {
      var node := nodes[top.varNo];
      assert NodeOk(top.varNo, node);
      if Below(nodes, node.left, l) {
        BelowIsKnown(nodes, node.left, l);
      } else {
        BelowIsKnown(nodes, node.right, l);
      }
    }
  }

  lemma {:induction false} BelowTransitive(nodes: Nodes, top: Literal, mid: Literal, l: Literal)
    requires NodesOk(nodes) && Below(nodes, top, mid) && Below(nodes, mid, l)
    ensures Below(nodes, top, l)
    decreases top.varNo
  {
    if top != mid {
      var node := nodes[top.varNo];
      assert NodeOk(top.varNo, node);
      if Below(nodes, node.left, mid) {
        BelowTransitive(nodes, node.left, mid, l);
      } else {
        BelowTransitive(nodes, node.right, mid, l);
      }
    }
  }

  /** All literals met while converting top get right gates. */
  ghost predicate AllRight(nodes: Nodes, top: Literal)
    requires NodesOk(nodes) && Known(nodes, top)
  {
    forall l, x: Inputs | Below(nodes, top, l) && Known(nodes, l) :: Value(nodes, l, x, true) == Meaning(nodes, l, x)
  }

  /** That is so exactly if the negation of variable 0 is not among them. */
  lemma RightUnlessNegatedZero(nodes: Nodes, top: Literal)
    requires NodesOk(nodes) && Known(nodes, top) && 0 in nodes
    ensures AllRight(nodes, top) <==> !Below(nodes, top, NEGATED_ZERO)
  {
    if Below(nodes, top, NEGATED_ZERO) {
      var x: Inputs := k => true;
      assert Value(nodes, NEGATED_ZERO, x, true) != Meaning(nodes, NEGATED_ZERO, x) by {
        NegatedZeroIsWrong(nodes, x);
      }
    } else {
      forall l, x: Inputs | Below(nodes, top, l) && Known(nodes, l)
        ensures Value(nodes, l, x, true) == Meaning(nodes, l, x)
      {
        if Below(nodes, l, NEGATED_ZERO) {
          BelowTransitive(nodes, top, l, NEGATED_ZERO);
        }
        SignMattersOnlyThere(nodes, l, x);
      }
    }
  }

  /** For the negation of variable 0 the gate of variable 0 comes back, which is wrong for all inputs. */
  lemma NegatedZeroIsWrong(nodes: Nodes, x: Inputs)
    requires NodesOk(nodes) && 0 in nodes
    ensures Value(nodes, NEGATED_ZERO, x, true) == !Meaning(nodes, NEGATED_ZERO, x) == x(0)
  {
    assert NodeOk(0, nodes[0]);
  }

  /** The gate that convert_node returns computes the literal with the sign of variable 0 dropped ... */
  lemma ConvertedGateValue(nodes: Nodes, inputs: set<int>, gates: Gates, next: nat, m: LiteralMap, labels: Labels,
                           pending: set<GateId>, x: Inputs, v: Valuation, l: Literal, g: GateId)
    requires StateOk(nodes, inputs, gates, next, m, labels, pending) && RunsOn(nodes, gates, labels, pending, x, v)
    requires Known(nodes, l) && g in gates && g in labels && g !in pending && labels[g] == LabelOf(l)
    ensures v(g) == Value(nodes, l, x, true)
  {
    hide StateOk, RunsOn, NodesOk, VarValue;
    assert NodesOk(nodes) by { StateAt(nodes, inputs, gates, next, m, labels, pending, g); }
    ValueOfLabel(nodes, l, x);
    GatesHaveLabelValues(nodes, inputs, gates, next, m, labels, pending, x, v, g);
  }

  /** ... which is the literal, unless the negation of variable 0 is met on the way. */
  lemma ConvertedGateIsRight(nodes: Nodes, inputs: set<int>, gates: Gates, next: nat, m: LiteralMap, labels: Labels,
                             pending: set<GateId>, x: Inputs, v: Valuation, l: Literal, g: GateId)
    requires StateOk(nodes, inputs, gates, next, m, labels, pending) && RunsOn(nodes, gates, labels, pending, x, v)
    requires Known(nodes, l) && g in gates && g in labels && g !in pending && labels[g] == LabelOf(l)
    requires !Below(nodes, l, NEGATED_ZERO)
    ensures v(g) == Meaning(nodes, l, x)
  {
    hide StateOk, RunsOn, VarValue, Meaning, Value;
    assert NodesOk(nodes) by { StateAt(nodes, inputs, gates, next, m, labels, pending, g); }
    ConvertedGateValue(nodes, inputs, gates, next, m, labels, pending, x, v, l, g);
    SignMattersOnlyThere(nodes, l, x);
  }

  /** In terms of the circuit: in every consistent valuation the gate has the value of the literal. */
  lemma ConvertedLiteral(nodes: Nodes, inputs: set<int>, gates: Gates, next: nat, m: LiteralMap, labels: Labels,
                         x: Inputs, v: Valuation, l: Literal, g: GateId)
    requires StateOk(nodes, inputs, gates, next, m, labels, {}) && NodesOk(nodes)
    requires IsBoolean(gates) && Consistent(gates, v) && CarriesInputs(nodes, gates, labels, x, v)
    requires Known(nodes, l) && g in gates && g in labels && labels[g] == LabelOf(l)
    ensures v(g) == Value(nodes, l, x, true)
    ensures !Below(nodes, l, NEGATED_ZERO) ==> v(g) == Meaning(nodes, l, x)
  {
    hide StateOk, NodesOk, IsBoolean, Consistent, Value, Meaning, RunsOn;
    ConsistentRuns(nodes, inputs, gates, next, m, labels, x, v);
    ConvertedGateValue(nodes, inputs, gates, next, m, labels, {}, x, v, l, g);
    if !Below(nodes, l, NEGATED_ZERO) {
      ConvertedGateIsRight(nodes, inputs, gates, next, m, labels, {}, x, v, l, g);
    }
  }

  // ----- how many gates there are -----

  /** The gates made for nodes, or the NOTs made for negated literals. */
  ghost function Role(gates: Gates, labels: Labels, isNot: bool): (s: set<GateId>)
    requires gates.Keys == labels.Keys
  {
    set g | g in gates && labels[g].LitGate? && (gates[g].op == NOT) == isNot
  }

  lemma {:induction false} FewerThanNodes(nodes: Nodes, gates: Gates, labels: Labels, s: set<GateId>, vars: set<int>)
    requires gates.Keys == labels.Keys && s <= gates.Keys
    requires forall g | g in s :: labels[g].LitGate? && VarOf(labels[g].d) in vars
    requires forall g, h | g in s && h in s && VarOf(labels[g].d) == VarOf(labels[h].d) :: g == h
    ensures |s| <= |vars|
    decreases s
  {
    if s != {} {
      var g :| g in s;
      var k: int := VarOf(labels[g].d);
      FewerThanNodes(nodes, gates, labels, s - {g}, vars - {k});
    }
  }

  /** There is at most one gate per node, and at most one NOT per variable. */
  lemma AtMostOneGatePerNode(nodes: Nodes, inputs: set<int>, gates: Gates, next: nat, m: LiteralMap, labels: Labels,
                             pending: set<GateId>, isNot: bool)
    requires StateOk(nodes, inputs, gates, next, m, labels, pending)
    ensures gates.Keys == labels.Keys && |Role(gates, labels, isNot)| <= |nodes|
  {
    hide WiredOk, NodesOk, AllSpell, AllConvertible;
    NamedGates(nodes, inputs, gates, next, m, labels, pending);
    var s := Role(gates, labels, isNot);
    forall g | g in s
      ensures labels[g].LitGate? && VarOf(labels[g].d) in nodes.Keys
    {
      assert ShapeOk(nodes, gates, labels, g);
    }
    forall g, h | g in s && h in s && VarOf(labels[g].d) == VarOf(labels[h].d)
      ensures g == h
    {
      assert SameRole(gates, labels, g, h);
    }
    FewerThanNodes(nodes, gates, labels, s, nodes.Keys);
    assert |nodes.Keys| == |nodes|;
  }
}
