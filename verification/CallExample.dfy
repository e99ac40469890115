/** The parallel execution graph of a small circuit with a function call. */
module CallExample {
  import opened Basics
  import opened GateGraph
  import opened GateDepth
  import opened DepthSearch
  import opened OutputDepths
  import opened BlockGraph
  import opened BlockOrder
  import opened GraphBuilder

  /** a AND f(a): the INPUT a 1, the call's argument 2 and result 3, the AND 4 and its OUTPUT 5. */
  function GateAt(g: GateId): (gate: Gate) {
    match g
    case 1 => Gate(INPUT, 1, 0, [], [Fanout(0, Wire(2, 0)), Fanout(0, Wire(4, 0))])
    case 2 => Gate(OUTPUT, 1, 0, [Wire(1, 0)], [])
    case 3 => Gate(INPUT, 1, 0, [], [Fanout(0, Wire(4, 1))])
    case 4 => Gate(AND, 1, 0, [Wire(1, 0), Wire(3, 0)], [Fanout(0, Wire(5, 0))])
    case _ => Gate(OUTPUT, 1, 0, [Wire(4, 0)], [])
  }

  const GATES: Gates := map g: GateId | 1 <= g <= 5 :: GateAt(g)

  const CIRCUIT: Circuit := Circuit(GATES, [Call(7, "f", [2], [3])], [5], {1, 3})

  ghost function Numbered(g: GateId): (n: nat) { g }

  lemma GateIsMirrored(g: GateId)
    requires 1 <= g <= 5
    ensures g in GATES && GATES[g] == GateAt(g) && NoDuplicates(GateAt(g).fanouts)
    ensures forall i: nat | i < |GateAt(g).fanins| :: FaninMirrored(GATES, g, i)
    ensures forall i: nat | i < |GateAt(g).fanouts| :: FanoutMirrored(GATES, g, i)
    ensures forall w | w in GateAt(g).fanins :: 1 <= w.gate < g
  {
    AllGates();
    hide GATES;
    assert GateAt(1).fanouts[0] == Fanout(0, Wire(2, 0)) && GateAt(1).fanouts[1] == Fanout(0, Wire(4, 0));
    assert GateAt(3).fanouts[0] == Fanout(0, Wire(4, 1)) && GateAt(4).fanouts[0] == Fanout(0, Wire(5, 0));
  }

  lemma AllGates()
    ensures forall g: GateId | 1 <= g <= 5 :: g in GATES && GATES[g] == GateAt(g)
    ensures forall g | g in GATES :: 1 <= g <= 5
  {
  }

  lemma GateShape(g: GateId)
    requires 1 <= g <= 5
    ensures GateAt(g).op == INPUT <==> g == 1 || g == 3
    ensures GateAt(g).op == OUTPUT <==> g == 2 || g == 5
    ensures GateAt(g).fanins == [] <==> g == 1 || g == 3
    ensures GateAt(g).op == OUTPUT ==> |GateAt(g).fanins| == 1 && GateAt(g).fanouts == []
  {
  }

  lemma GatesAreWellFormed()
    ensures GatesWellFormed(CIRCUIT) && Ranked(GATES, Numbered)
  {
    AllGates();
    hide GATES, GateAt, FaninMirrored, FanoutMirrored, NoDuplicates;
    forall g: GateId | 1 <= g <= 5
      ensures NoDuplicates(GateAt(g).fanouts)
      ensures forall i: nat | i < |GateAt(g).fanins| :: FaninMirrored(GATES, g, i)
      ensures forall i: nat | i < |GateAt(g).fanouts| :: FanoutMirrored(GATES, g, i)
      ensures forall w | w in GateAt(g).fanins :: 1 <= w.gate < g
      ensures GateAt(g).op == INPUT <==> g == 1 || g == 3
      ensures GateAt(g).op == OUTPUT <==> g == 2 || g == 5
      ensures GateAt(g).fanins == [] <==> g == 1 || g == 3
      ensures GateAt(g).op == OUTPUT ==> |GateAt(g).fanins| == 1 && GateAt(g).fanouts == []
    {
      GateIsMirrored(g);
      GateShape(g);
    }
  }

  /** The hypotheses on circuits with calls can be met. */
  lemma CircuitIsWellFormed()
    ensures WellFormed(CIRCUIT, Numbered) && Bounded(CIRCUIT, Numbered, 6)
  {
    GatesAreWellFormed();
    AllGates();
    hide GATES, Mirrored, Ranked;
    var calls := CIRCUIT.calls;
    assert calls[0] == Call(7, "f", [2], [3]);
    assert GateAt(2).op == OUTPUT && GateAt(3).op == INPUT;
    assert forall k: nat, g | IsResult(CIRCUIT, k, g) :: k == 0 && g == 3;
    assert forall k: nat, g | IsArgument(CIRCUIT, k, g) :: k == 0 && g == 2;
  }

  /** The AND is behind the call: depth 2. */
  lemma DepthOfAnd()
    ensures WellFormed(CIRCUIT, Numbered) && Depth(CIRCUIT, Numbered, 4) == 2
  {
    CircuitIsWellFormed();
    AllGates();
    hide GATES, WellFormed;
    var c, rank := CIRCUIT, Numbered;
    assert IsResult(c, 0, 3) && !IsCallResult(c, 1) && !IsCallResult(c, 2) && !IsCallResult(c, 4);
    assert Dependencies(c, 1) == [] && Dependencies(c, 2) == [1] && Dependencies(c, 4) == [1, 3];
    assert Depth(c, rank, 1) == 0;
    OneDependency(2, 1);
    assert CallOfResult(c, 3) == 0;
    assert Dependencies(c, 3) == [2];
    OneDependency(3, 2);
    TwoDependencies();
  }

  lemma OneDependency(g: GateId, f: GateId)
    requires WellFormed(CIRCUIT, Numbered) && g in GATES && f in GATES && f < g && Dependencies(CIRCUIT, g) == [f]
    ensures Depth(CIRCUIT, Numbered, g) == Depth(CIRCUIT, Numbered, f) + Cost(CIRCUIT, g)
  {
    hide GATES, WellFormed, Dependencies, Cost;
    assert [f][..0] == [];
    assert MaxDepth(CIRCUIT, Numbered, g, []) == 0;
    assert MaxDepth(CIRCUIT, Numbered, g, [f]) == Depth(CIRCUIT, Numbered, f);
  }

  lemma TwoDependencies()
    requires WellFormed(CIRCUIT, Numbered) && 1 in GATES && 3 in GATES && 4 in GATES && Dependencies(CIRCUIT, 4) == [1, 3]
    ensures Depth(CIRCUIT, Numbered, 4)
            == Max(Depth(CIRCUIT, Numbered, 1), Depth(CIRCUIT, Numbered, 3)) + Cost(CIRCUIT, 4)
  {
    hide GATES, WellFormed, Dependencies, Cost;
    var deps: seq<GateId> := [1, 3];
    assert deps[..1] == [1] && deps[..1][..0] == [];
    assert MaxDepth(CIRCUIT, Numbered, 4, deps[..1][..0]) == 0;
    assert MaxDepth(CIRCUIT, Numbered, 4, deps[..1]) == Depth(CIRCUIT, Numbered, 1);
  }

  /** The construction goes through. */
  method BuildGraph() returns (graph: ParallelExecutionGraph, owners: Owners, ghost x: Context)
    ensures x.c == CIRCUIT && Built(x, graph.View(), owners) && 5 in owners
    ensures forall path | IsBlockPath(graph.View(), path) && |path| > 1 :: path[0] != path[|path| - 1]
  {
    CircuitIsWellFormed();
    hide GATES, WellFormed, Bounded, Built, IsBlockPath;
    graph, owners, x := BuildParallelExecutionGraph(CIRCUIT, Numbered, 6);
    assert 5 in CIRCUIT.outputs;
  }
}
