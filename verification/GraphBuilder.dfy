/** build_parallel_execution_graph: the recursion that puts every element in its block. */
module GraphBuilder {
  import opened Basics
  import opened GateGraph
  import opened GateDepth
  import opened DepthSearch
  import opened OutputDepths
  import opened BlockGraph
  import opened BlockSteps
  import opened CallStep
  import opened BlockOrder

  /** parallel_execution_grapht; blocks are kept by id, the root under 0 and the leaf under 1. */
  class ParallelExecutionGraph {
    var idCounter: nat
    var gateBlocks: map<Key, BlockId>
    var callBlocks: map<int, BlockId>
    var blocks: map<BlockId, Block>

    ghost function View(): (G: Graph)
      reads this
    {
      Graph(idCounter, gateBlocks, callBlocks, blocks)
    }

    constructor ()
      ensures View() == EMPTY
    {
      idCounter := 2;
      gateBlocks := map[];
      callBlocks := map[];
      blocks := map[ROOT := EmptyBlock(0, {MAX_DEPTH}), LEAF := EmptyBlock(0, {MAX_DEPTH})];
    }

    method GetGateBlock(inputDepth: int, outputDepths: set<int>) returns (b: BlockId)
      modifies this
      ensures var k := Key(inputDepth, outputDepths);
              if k in old(gateBlocks) then View() == old(View()) && b == old(gateBlocks)[k]
              else View() == WithBlock(old(View()), k) && b == old(idCounter)
    {
      var key := Key(inputDepth, outputDepths);
      if key in gateBlocks {
        return gateBlocks[key];
      }
      b := idCounter;
      idCounter := idCounter + 1;
      gateBlocks := gateBlocks[key := b];
      blocks := blocks[b := EmptyBlock(inputDepth, outputDepths)];
    }

    /** The insertion must be of a new call id. */
    method AddCallBlock(inputDepth: int, callId: int, name: string, inputs: map<GateId, BlockId>) returns (b: BlockId)
      requires callId !in callBlocks
      modifies this
      ensures b == old(idCounter)
      ensures View() == Graph(old(idCounter) + 1, old(gateBlocks), old(callBlocks)[callId := b],
                              old(blocks)[b := CallBlock(inputDepth, {}, inputs, name, callId)])
    {
      b := idCounter;
      idCounter := idCounter + 1;
      callBlocks := callBlocks[callId := b];
      blocks := blocks[b := CallBlock(inputDepth, {}, inputs, name, callId)];
    }

    method AddFanin(b: BlockId, p: BlockId)
      requires b in blocks
      modifies this`blocks
      ensures View() == WithFanins(old(View()), b, {p})
    {
      blocks := blocks[b := blocks[b].(fanins := blocks[b].fanins + {p})];
    }

    /** gate_blockt::add_element */
    method AddElement(c: Circuit, b: BlockId, g: GateId, owners: Owners)
      requires b in blocks && blocks[b].GateBlock? && g in c.gates && g !in blocks[b].localDepths
      requires forall w | w in c.gates[g].fanins :: w.gate in owners
      modifies this`blocks
      ensures blocks == old(blocks)[b := WithElement(c, old(blocks)[b], owners, g)]
    {
      hide MaxLocal, AddedInputs;
      var B := blocks[b];
      var inputs, elementDepth := B.inputs, 0;
      var fanins := c.gates[g].fanins;
      NoAddedInputs(B.localDepths, owners);
      assert fanins[..0] == [];
      for i := 0 to |fanins|
        invariant blocks == old(blocks)
        invariant elementDepth == MaxLocal(B.localDepths, fanins[..i])
        invariant inputs == B.inputs + AddedInputs(B.localDepths, fanins[..i], owners)
      {
        NextInput(B.localDepths, fanins, i, owners);
        var f := fanins[i].gate;
        if f !in B.localDepths {
          inputs := inputs[f := owners[f]];
        } else {
          elementDepth := Max(elementDepth, B.localDepths[f]);
        }
      }
      assert fanins[..|fanins|] == fanins;
      var nonLinear := 0;
      if IsNonLinear(c.gates[g].op) {
        elementDepth := elementDepth + 1;
        nonLinear := 1;
      }
      var B' := B.(inputs := inputs, localDepths := B.localDepths[g := elementDepth],
              nonLinearGates := B.nonLinearGates + nonLinear,
              nonLinearHeight := Max(B.nonLinearHeight, elementDepth));
      assert B' == WithElement(c, B, owners, g);
      blocks := blocks[b := B'];
    }
  }

  ghost function WithElement(c: Circuit, B: Block, owners: Owners, g: GateId): (B': Block)
    requires B.GateBlock? && g in c.gates && forall w | w in c.gates[g].fanins :: w.gate in owners
  {
    var d := NonLinear(c, g) + MaxLocal(B.localDepths, c.gates[g].fanins);
    B.(inputs := B.inputs + AddedInputs(B.localDepths, c.gates[g].fanins, owners),
       localDepths := B.localDepths[g := d],
       nonLinearGates := B.nonLinearGates + NonLinear(c, g),
       nonLinearHeight := Max(B.nonLinearHeight, d))
  }

  lemma NoAddedInputs(local: map<GateId, int>, owners: Owners)
    ensures AddedInputs(local, [], owners) == map[] && MaxLocal(local, []) == 0
  {
  }

  lemma NextInput(local: map<GateId, int>, ws: seq<Wire>, i: nat, owners: Owners)
    requires i < |ws| && forall w | w in ws :: w.gate in owners
    ensures var f := ws[i].gate;
            var d, m := MaxLocal(local, ws[..i]), AddedInputs(local, ws[..i], owners);
            && ws[i] in ws
            && MaxLocal(local, ws[..i + 1]) == (if f in local then Max(d, local[f]) else d)
            && AddedInputs(local, ws[..i + 1], owners) == (if f in local then m else m[f := owners[f]])
  {
    NextAddedInput(local, ws, i, owners);
    hide AddedInputs;
    assert ws[..i + 1][..i] == ws[..i];
    LocalDepthsArePositive(local, ws[..i]);
  }

  lemma NextAddedInput(local: map<GateId, int>, ws: seq<Wire>, i: nat, owners: Owners)
    requires i < |ws| && forall w | w in ws :: w.gate in owners
    ensures var m := AddedInputs(local, ws[..i], owners);
            AddedInputs(local, ws[..i + 1], owners) == if ws[i].gate in local then m else m[ws[i].gate := owners[ws[i].gate]]
  {
    hide MaxLocal;
    assert ws[..i + 1] == ws[..i] + [ws[i]];
    assert Sources(ws[..i + 1]) == Sources(ws[..i]) + {ws[i].gate};
  }

  lemma LocalDepthsArePositive(local: map<GateId, int>, ws: seq<Wire>)
    ensures 0 <= MaxLocal(local, ws)
  {
  }

  // ----- what the recursion keeps -----

  lemma ExtendsTransitive(G: Graph, W: Owners, G': Graph, W': Owners, G'': Graph, W'': Owners)
    requires Extends(G, W, G', W') && Extends(G', W', G'', W'')
    ensures Extends(G, W, G'', W'')
  {
  }

  /** The blocks that feed b through the wires. */
  ghost function FaninBlocks(W: Owners, ws: seq<Wire>): (s: set<BlockId>)
    requires forall w | w in ws :: w.gate in W
  {
    set w | w in ws :: W[w.gate]
  }

  ghost function WithFanins(G: Graph, b: BlockId, s: set<BlockId>): (G': Graph)
    requires b in G.blocks
  {
    G.(blocks := G.blocks[b := G.blocks[b].(fanins := G.blocks[b].fanins + s)])
  }

  lemma WithNoFanins(G: Graph, b: BlockId)
    requires b in G.blocks
    ensures WithFanins(G, b, {}) == G
  {
    var B := G.blocks[b];
    assert B.fanins + {} == B.fanins;
    assert WithFanins(G, b, {}).blocks[b] == B;
  }

  lemma WithFaninsKeeps(G: Graph, b: BlockId, s: set<BlockId>)
    requires b in G.blocks
    ensures b in WithFanins(G, b, s).blocks
  {
  }

  lemma WithMoreFanins(G: Graph, b: BlockId, s: set<BlockId>, t: set<BlockId>)
    requires b in G.blocks
    ensures var G' := WithFanins(G, b, s); b in G'.blocks && WithFanins(G', b, t) == WithFanins(G, b, s + t)
  {
    assert G.blocks[b].fanins + s + t == G.blocks[b].fanins + (s + t);
    var G' := WithFanins(G, b, s);
    assert WithFanins(G', b, t).blocks[b] == WithFanins(G, b, s + t).blocks[b];
    assert WithFanins(G', b, t).blocks == WithFanins(G, b, s + t).blocks;
  }

  lemma JoinInSteps(c: Circuit, G: Graph, W: Owners, b: BlockId, g: GateId)
    requires b in G.blocks && G.blocks[b].GateBlock?
    requires g in c.gates && forall w | w in c.gates[g].fanins :: w.gate in W
    ensures var G' := WithFanins(G, b, FaninBlocks(W, c.gates[g].fanins) - {b});
            WithGate(c, G, W, b, g) == G'.(blocks := G'.blocks[b := WithElement(c, G'.blocks[b], W, g)])
  {
    hide MaxLocal, AddedInputs;
    var ws := c.gates[g].fanins;
    assert FaninBlocks(W, ws) - {b} == set w | w in ws && W[w.gate] != b :: W[w.gate];
    var G' := WithFanins(G, b, FaninBlocks(W, ws) - {b});
    var B' := WithElement(c, G'.blocks[b], W, g);
    assert JoinedBlock(c, G.blocks[b], W, b, g) == B';
    assert G'.blocks[b := B'] == G.blocks[b := B'];
  }

  lemma FaninKnown(x: Context, g: GateId, i: nat)
    requires Prepared(x) && g in x.c.gates && x.c.gates[g].op != INPUT && Known(x.c, x.depths, g)
    requires i < |x.c.gates[g].fanins|
    ensures var f := x.c.gates[g].fanins[i].gate;
            f in x.c.gates && !IsCallArgument(x.c, f) && Known(x.c, x.depths, f) && x.rank(f) < x.rank(g)
            && x.c.gates[f].op != OUTPUT
  {
    hide Correct, WellFormed;
    EntryOf(x.c, x.rank, x.depths, g);
    FaninIsNoArgument(x.c, x.rank, g, i);
    NextDependency(x.c, x.rank, g, i);
    assert x.c.gates[g].fanins[i].gate in Dependencies(x.c, g);
  }

  lemma DriverKnown(x: Context, k: nat, g: GateId, a: GateId)
    requires Prepared(x) && IsResult(x.c, k, g) && g in x.depths && a in x.c.calls[k].args
    ensures a in x.c.gates && |x.c.gates[a].fanins| == 1
    ensures var f := Driver(x.c, a);
            f in x.c.gates && !IsCallArgument(x.c, f) && Known(x.c, x.depths, f) && x.rank(f) < x.rank(g)
  {
    hide Correct;
    assert IsArgument(x.c, k, a);
    DepthOfResult(x.c, x.rank, k, g);
    EntryOf(x.c, x.rank, x.depths, g);
    assert Known(x.c, x.depths, a);
    FaninKnown(x, a, 0);
  }

  lemma MaxInputDepthStep(G: Graph, W: Owners, ws: seq<Wire>, i: nat)
    requires i < |ws| && forall w | w in ws[..i + 1] :: w.gate in W && W[w.gate] in G.blocks
    ensures ws[i] in ws[..i + 1] && forall w | w in ws[..i] :: w in ws[..i + 1]
    ensures MaxInputDepth(G, W, ws[..i + 1])
            == Max(MaxInputDepth(G, W, ws[..i]), G.blocks[W[ws[i].gate]].inputDepth)
    ensures FaninBlocks(W, ws[..i + 1]) == FaninBlocks(W, ws[..i]) + {W[ws[i].gate]}
  {
    assert ws[..i + 1][..i] == ws[..i];
    assert ws[..i + 1] == ws[..i] + [ws[i]];
  }

  lemma FaninBlocksStay(G: Graph, W: Owners, G': Graph, W': Owners, ws: seq<Wire>)
    requires Extends(G, W, G', W') && forall w | w in ws :: w.gate in W
    ensures FaninBlocks(W, ws) == FaninBlocks(W', ws)
  {
  }

  lemma OwnerIsBlock(x: Context, G: Graph, W: Owners, g: GateId)
    requires Built(x, G, W) && g in W
    ensures W[g] in G.blocks && W[g] < G.idCounter
    ensures x.outs.Keys == x.c.gates.Keys && RightBlock(x, G, W, W[g], g)
  {
  }

  class GraphBuilder {
    const c: Circuit
    const gateDepths: Depths
    const closestOutputs: OutputSets
    const inputToCall: map<GateId, nat>
    const graph: ParallelExecutionGraph
    ghost const x: Context
    var owners: Owners

    ghost predicate Tables()
      reads this
    {
      && c == x.c && gateDepths == x.depths && closestOutputs == x.outs
      && (forall g :: g in inputToCall <==> IsCallResult(c, g))
      && (forall g | g in inputToCall :: IsResult(c, inputToCall[g], g))
    }

    ghost predicate Valid()
      reads this, graph
    {
      Tables() && Built(x, graph.View(), owners)
    }

    constructor (ghost x: Context, c: Circuit, gateDepths: Depths, closestOutputs: OutputSets,
                 inputToCall: map<GateId, nat>)
      requires Prepared(x) && c == x.c && gateDepths == x.depths && closestOutputs == x.outs
      requires forall g :: g in inputToCall <==> IsCallResult(c, g)
      requires forall g | g in inputToCall :: IsResult(c, inputToCall[g], g)
      ensures Valid() && this.x == x && owners == map[] && fresh(graph)
    {
      hide Built, Prepared;
      this.x := x;
      this.c := c;
      this.gateDepths := gateDepths;
      this.closestOutputs := closestOutputs;
      this.inputToCall := inputToCall;
      graph := new ParallelExecutionGraph();
      owners := map[];
      EmptyGraphIsBuilt(x);
    }

    /** Puts g into block b, of which graph already has the fanins that g adds. */
    method Place(b: BlockId, g: GateId, ghost G: Graph)
      requires Tables() && CanJoin(x, G, owners, b, g)
      requires graph.View() == WithFanins(G, b, FaninBlocks(owners, c.gates[g].fanins) - {b})
      modifies this`owners, graph`blocks
      ensures Valid() && owners == old(owners)[g := b] && Extends(G, old(owners), graph.View(), owners)
    {
      hide Built, RightBlock, JoinedBlock, WithElement;
      JoinInSteps(c, G, owners, b, g);
      JoinKeepsBuilt(x, G, owners, b, g);
      NotAMember(x, G, owners, b, g);
      graph.AddElement(c, b, g, owners);
      owners := owners[g := b];
    }

    /** assign_element_to_block */
    method AssignElement(g: GateId) returns (b: BlockId)
      requires Valid() && g in c.gates && !IsCallArgument(c, g) && Known(c, gateDepths, g)
      modifies this`owners, graph
      ensures Valid() && g in owners && b == owners[g]
      ensures Grown(x, old(graph.View()), old(owners), graph.View(), owners, x.rank(g) + 1)
      decreases x.rank(g), 2
    {
      hide Built, Grown;
      if g in owners {
        NothingGrown(x, graph.View(), owners, x.rank(g) + 1);
        return owners[g];
      }
      match c.gates[g].op
      case INPUT => b := AssignInput(g);
      case OUTPUT => b := AssignOutput(g);
      case _ => b := AssignGate(g);
    }

    /** assign_gate_to_block */
    method AssignGate(g: GateId) returns (b: BlockId)
      requires Valid() && g in c.gates && g !in owners && Known(c, gateDepths, g)
      requires c.gates[g].op != INPUT && c.gates[g].op != OUTPUT
      modifies this`owners, graph
      ensures Valid() && g in owners && b == owners[g]
      ensures Grown(x, old(graph.View()), old(owners), graph.View(), owners, x.rank(g) + 1)
      decreases x.rank(g), 1
    {
      hide Built, Grown, Prepared, RightBlock, MaxInputDepth, WithBlock, Extends;
      var faninBlocks, closestInputDepth := AssignFanins(g);
      ghost var G, W := graph.View(), owners;
      assert g in closestOutputs by {
        BuiltIsPrepared(x, G, W);
        PreparedKeys(x);
      }
      NotYetOwned(x, old(graph.View()), old(owners), G, W, g);
      if c.gates[g].fanins == [] {
        b := ROOT;
      } else {
        b := graph.GetGateBlock(closestInputDepth, closestOutputs[g]);
      }
      ghost var G' := graph.View();
      BlockForGate(x, G, G', W, b, g);
      AddFanins(b, faninBlocks);
      Place(b, g, G');
      ExtendsTransitive(G, W, G', W, graph.View(), owners);
      PlacedGrown(x, old(graph.View()), old(owners), G, W, graph.View(), g, b);
    }

    /** The fanin blocks and the depth of the closest input, over all fanins of a gate. */
    method AssignFanins(g: GateId) returns (faninBlocks: set<BlockId>, closestInputDepth: int)
      requires Valid() && g in c.gates && Known(c, gateDepths, g)
      requires c.gates[g].op != INPUT
      modifies this`owners, graph
      ensures Valid() && Grown(x, old(graph.View()), old(owners), graph.View(), owners, x.rank(g))
      ensures FaninsOwned(x, graph.View(), owners, g)
      ensures faninBlocks == FaninBlocks(owners, c.gates[g].fanins)
      ensures closestInputDepth == MaxInputDepth(graph.View(), owners, c.gates[g].fanins)
      decreases x.rank(g), 0
    {
      hide Built, Grown, Prepared, MaxInputDepth, FaninBlocks;
      faninBlocks, closestInputDepth := {}, 0;
      var fanins := c.gates[g].fanins;
      NoFanins(graph.View(), owners);
      assert fanins[..0] == [];
      NothingGrown(x, graph.View(), owners, x.rank(g));
      for i := 0 to |fanins|
        invariant Valid() && Grown(x, old(graph.View()), old(owners), graph.View(), owners, x.rank(g))
        invariant WiresOwned(graph.View(), owners, fanins[..i])
        invariant faninBlocks == FaninBlocks(owners, fanins[..i])
        invariant closestInputDepth == MaxInputDepth(graph.View(), owners, fanins[..i])
      {
        ghost var G, W := graph.View(), owners;
        BuiltIsPrepared(x, G, W);
        FaninKnown(x, g, i);
        var faninBlock := AssignElement(fanins[i].gate);
        OneMoreFanin(x, g, old(graph.View()), old(owners), G, W, graph.View(), owners, i);
        closestInputDepth := Max(closestInputDepth, graph.blocks[faninBlock].inputDepth);
        faninBlocks := faninBlocks + {faninBlock};
      }
      assert fanins[..|fanins|] == fanins;
    }

    method AddFanins(b: BlockId, faninBlocks: set<BlockId>)
      requires b in graph.blocks
      modifies graph`blocks
      ensures graph.View() == WithFanins(old(graph.View()), b, faninBlocks - {b})
    {
      hide WithFanins;
      ghost var G := graph.View();
      WithNoFanins(G, b);
      var todo := faninBlocks;
      ghost var done: set<BlockId> := {};
      assert done - {b} == {};
      while todo != {}
        invariant todo + done == faninBlocks && todo !! done && b in graph.blocks
        invariant graph.View() == WithFanins(G, b, done - {b})
        decreases todo
      {
        var p :| p in todo;
        WithMoreFanins(G, b, done - {b}, {p});
        if b != p {
          graph.AddFanin(b, p);
          assert done + {p} - {b} == done - {b} + {p};
        } else {
          assert done + {p} - {b} == done - {b};
        }
        WithFaninsKeeps(G, b, done + {p} - {b});
        todo := todo - {p};
        done := done + {p};
      }
    }

    /** assign_output_to_block */
    method AssignOutput(g: GateId) returns (b: BlockId)
      requires Valid() && g in c.gates && g !in owners && Known(c, gateDepths, g)
      requires c.gates[g].op == OUTPUT && !IsCallArgument(c, g)
      modifies this`owners, graph
      ensures Valid() && g in owners && b == owners[g]
      ensures Grown(x, old(graph.View()), old(owners), graph.View(), owners, x.rank(g) + 1)
      decreases x.rank(g), 0
    {
      hide Built, Grown, Prepared, RightBlock, Extends;
      BuiltIsPrepared(x, graph.View(), owners);
      OutputHasFanin(x, g);
      FaninKnown(x, g, 0);
      var faninBlock := AssignElement(c.gates[g].fanins[0].gate);
      ghost var G, W := graph.View(), owners;
      GrownMore(x, old(graph.View()), old(owners), G, W, x.rank(c.gates[g].fanins[0].gate) + 1, x.rank(g));
      NotYetOwned(x, old(graph.View()), old(owners), G, W, g);
      BlockForOutput(x, G, W, g);
      b := LEAF;
      graph.AddFanin(b, faninBlock);
      Place(b, g, G);
      PlacedGrown(x, old(graph.View()), old(owners), G, W, graph.View(), g, b);
    }

    /** assign_input_to_block */
    method AssignInput(g: GateId) returns (b: BlockId)
      requires Valid() && g in c.gates && g !in owners && Known(c, gateDepths, g) && c.gates[g].op == INPUT
      modifies this`owners, graph
      ensures Valid() && g in owners && b == owners[g]
      ensures Grown(x, old(graph.View()), old(owners), graph.View(), owners, x.rank(g) + 1)
      decreases x.rank(g), 1
    {
      hide Built, Grown, Prepared, RightBlock, Extends;
      if g in inputToCall {
        b := AssignCall(g, inputToCall[g]);
      } else {
        b := ROOT;
        ghost var G, W := graph.View(), owners;
        BlockForInput(x, G, W, g);
        Place(b, g, G);
        NothingGrown(x, G, W, x.rank(g));
        PlacedGrown(x, G, W, G, W, graph.View(), g, b);
      }
    }

    /** The part of assign_input_to_block for return values of calls. */
    method AssignCall(g: GateId, k: nat) returns (b: BlockId)
      requires Valid() && g !in owners && g in gateDepths && IsResult(c, k, g)
      modifies this`owners, graph
      ensures Valid() && g in owners && b == owners[g]
      ensures Grown(x, old(graph.View()), old(owners), graph.View(), owners, x.rank(g) + 1)
      decreases x.rank(g), 0
    {
      hide Built, Grown, Prepared, Extends, NewCallBlock, CallRead, CanAddCall, WellFormed, WithCall, WithResults;
      var faninBlocks: set<BlockId> := {};
      var blockInputs: map<GateId, BlockId> := map[];
      var args := c.calls[k].args;
      NothingGrown(x, graph.View(), owners, x.rank(g));
      NothingRead(c, owners);
      assert args[..0] == [];
      for i := 0 to |args|
        invariant Valid() && Grown(x, old(graph.View()), old(owners), graph.View(), owners, x.rank(g))
        invariant CallRead(c, owners, args[..i], faninBlocks, blockInputs)
      {
        ghost var G, W := graph.View(), owners;
        BuiltIsPrepared(x, G, W);
        DriverKnown(x, k, g, args[i]);
        var f := c.gates[args[i]].fanins[0].gate;
        var faninBlock := AssignElement(f);
        GrownTransitive(x, old(graph.View()), old(owners), G, W, graph.View(), owners, x.rank(f) + 1, x.rank(g));
        GrownKeeps(x, G, W, graph.View(), owners, x.rank(f) + 1);
        OneMoreArgument(x, G, W, graph.View(), owners, args, i, faninBlocks, blockInputs);
        faninBlocks := faninBlocks + {faninBlock};
        blockInputs := blockInputs[f := faninBlock];
      }
      assert args[..|args|] == args;
      CallCanBeAdded(x, old(graph.View()), old(owners), graph.View(), owners, k, g, faninBlocks, blockInputs);
      CallGrown(x, old(graph.View()), old(owners), graph.View(), owners, k, g, gateDepths[g]);
      b := AddCall(g, k, faninBlocks, blockInputs);
    }

    /** The block of a call whose arguments all have blocks. */
    method AddCall(g: GateId, k: nat, faninBlocks: set<BlockId>, blockInputs: map<GateId, BlockId>) returns (b: BlockId)
      requires Valid() && IsResult(c, k, g) && g in gateDepths && CanAddCall(x, graph.View(), owners, k, gateDepths[g])
      requires CallRead(c, owners, c.calls[k].args, faninBlocks, blockInputs)
      modifies this`owners, graph
      ensures Valid() && g in owners && b == owners[g] && b == old(graph.idCounter)
      ensures graph.View() == WithCall(c, old(graph.View()), old(owners), k, gateDepths[g])
      ensures owners == WithResults(c, old(owners), k, b)
    {
      hide Built, WellFormed, NewCallBlock, CallRead, WithFanins;
      ghost var G, W := graph.View(), owners;
      CallReadIsNew(x, G, W, k, gateDepths[g], faninBlocks, blockInputs);
      b := graph.AddCallBlock(gateDepths[g], c.calls[k].id, c.calls[k].name, blockInputs);
      NewCallFanins(x, G, W, k, gateDepths[g], faninBlocks, blockInputs);
      AddFanins(b, faninBlocks);
      AssignResults(k, b);
      CallKeepsBuilt(x, G, W, k, gateDepths[g]);
    }

    method AssignResults(k: nat, b: BlockId)
      requires k < |c.calls|
      modifies this`owners
      ensures owners == WithResults(c, old(owners), k, b)
    {
      hide WithOwner;
      var results := c.calls[k].results;
      AllOwners(c, owners, k, b);
      for i := 0 to |results|
        invariant owners == WithOwner(old(owners), results[..i], b)
      {
        NextOwner(old(owners), results, i, b);
        owners := owners[results[i] := b];
      }
      assert results[..|results|] == results;
    }

    /** The last part of build_parallel_execution_graph. */
    method AssignOutputs()
      requires Valid() && forall o | o in c.outputs :: o in gateDepths
      modifies this`owners, graph
      ensures Valid() && forall o | o in c.outputs :: o in owners
    {
      hide Built, Grown, Prepared;
      for i := 0 to |c.outputs|
        invariant Valid() && forall o | o in c.outputs[..i] :: o in owners
      {
        ghost var G, W := graph.View(), owners;
        BuiltIsPrepared(x, G, W);
        OutputIsNoArgument(c, x.rank, c.outputs[i]);
        var _ := AssignElement(c.outputs[i]);
        GrownKeeps(x, G, W, graph.View(), owners, x.rank(c.outputs[i]) + 1);
      }
      assert c.outputs[..|c.outputs|] == c.outputs;
    }
  }

  ghost function WithOwner(W: Owners, gates: seq<GateId>, b: BlockId): (W': Owners) {
    W + map g | g in gates :: b
  }

  lemma NextOwner(W: Owners, gates: seq<GateId>, i: nat, b: BlockId)
    requires i < |gates|
    ensures WithOwner(W, gates[..i + 1], b) == WithOwner(W, gates[..i], b)[gates[i] := b]
  {
    assert gates[..i + 1] == gates[..i] + [gates[i]];
  }

  lemma AllOwners(c: Circuit, W: Owners, k: nat, b: BlockId)
    requires k < |c.calls|
    ensures WithOwner(W, c.calls[k].results, b) == WithResults(c, W, k, b)
    ensures WithOwner(W, c.calls[k].results[..0], b) == W
  {
  }

  lemma NotAMember(x: Context, G: Graph, W: Owners, b: BlockId, g: GateId)
    requires CanJoin(x, G, W, b, g)
    ensures g !in G.blocks[b].localDepths
  {
    hide RightBlock, Prepared, CallBlocksOk, OwnersOk, WiringOk, HeightsOk, KeysOk;
  }

  lemma BuiltIsPrepared(x: Context, G: Graph, W: Owners)
    requires Built(x, G, W)
    ensures Prepared(x) && WellFormed(x.c, x.rank)
  {
  }

  lemma EmptyGraphIsBuilt(x: Context)
    requires Prepared(x)
    ensures Built(x, EMPTY, map[])
  {
    hide HeightsOk, Prepared, WiringOk;
    EmptyGraphHeights(x);
    EmptyGraphWiring(x);
    PreparedKeys(x);
  }

  lemma EmptyGraphHeights(x: Context)
    ensures HeightsOk(x, EMPTY)
  {
    assert NonLinearMembers(x.c, map[]) == {};
  }

  lemma EmptyGraphWiring(x: Context)
    ensures WiringOk(x, EMPTY, map[])
  {
  }

  // ----- growth -----

  /** What has a block keeps it, and only gates below the bound got one. */
  ghost predicate Grown(x: Context, G: Graph, W: Owners, G': Graph, W': Owners, bound: nat) {
    Extends(G, W, G', W') && forall g | g in W' && g !in W :: x.rank(g) < bound
  }

  lemma NothingGrown(x: Context, G: Graph, W: Owners, bound: nat)
    ensures Grown(x, G, W, G, W, bound)
  {
  }

  lemma GrownMore(x: Context, G: Graph, W: Owners, G': Graph, W': Owners, low: nat, bound: nat)
    requires Grown(x, G, W, G', W', low) && low <= bound
    ensures Grown(x, G, W, G', W', bound)
  {
    hide Extends;
  }

  lemma GrownTransitive(x: Context, G: Graph, W: Owners, G': Graph, W': Owners, G'': Graph, W'': Owners, low: nat, bound: nat)
    requires Grown(x, G, W, G', W', bound) && Grown(x, G', W', G'', W'', low) && low <= bound
    ensures Grown(x, G, W, G'', W'', bound)
  {
    hide Extends;
    ExtendsTransitive(G, W, G', W', G'', W'');
  }

  lemma GrownKeeps(x: Context, G: Graph, W: Owners, G': Graph, W': Owners, bound: nat)
    requires Grown(x, G, W, G', W', bound)
    ensures Extends(G, W, G', W') && forall g | g in W :: g in W'
  {
  }

  lemma NotYetOwned(x: Context, G: Graph, W: Owners, G': Graph, W': Owners, g: GateId)
    requires Grown(x, G, W, G', W', x.rank(g)) && g !in W
    ensures g !in W'
  {
    hide Extends;
  }

  lemma PlacedGrown(x: Context, G: Graph, W: Owners, G': Graph, W': Owners, G'': Graph, g: GateId, b: BlockId)
    requires Grown(x, G, W, G', W', x.rank(g)) && Extends(G', W', G'', W'[g := b])
    ensures Grown(x, G, W, G'', W'[g := b], x.rank(g) + 1)
  {
    hide Extends;
    ExtendsTransitive(G, W, G', W', G'', W'[g := b]);
  }

  lemma CallGrown(x: Context, G: Graph, W: Owners, G': Graph, W': Owners, k: nat, g: GateId, depth: int)
    requires Grown(x, G, W, G', W', x.rank(g)) && CanAddCall(x, G', W', k, depth) && IsResult(x.c, k, g)
    ensures Grown(x, G, W, WithCall(x.c, G', W', k, depth), WithResults(x.c, W', k, G'.idCounter), x.rank(g) + 1)
  {
    hide Extends, Built, GatesWellFormed, CallsWellFormed, WithCall;
    CallExtends(x, G', W', k, depth);
    ExtendsTransitive(G, W, G', W', WithCall(x.c, G', W', k, depth), WithResults(x.c, W', k, G'.idCounter));
    forall r | r in x.c.calls[k].results
      ensures x.rank(r) == x.rank(g)
    {
      assert IsResult(x.c, k, r);
    }
  }

  // ----- the fanins of a gate -----

  ghost predicate WiresOwned(G: Graph, W: Owners, ws: seq<Wire>) {
    forall w | w in ws :: w.gate in W && W[w.gate] in G.blocks
  }

  lemma NoFanins(G: Graph, W: Owners)
    ensures FaninBlocks(W, []) == {} && MaxInputDepth(G, W, []) == 0
  {
  }

  lemma OneMoreFanin(x: Context, g: GateId, G0: Graph, W0: Owners, G: Graph, W: Owners, G': Graph, W': Owners, i: nat)
    requires g in x.c.gates && i < |x.c.gates[g].fanins|
    requires x.rank(x.c.gates[g].fanins[i].gate) < x.rank(g)
    requires Grown(x, G0, W0, G, W, x.rank(g))
    requires Grown(x, G, W, G', W', x.rank(x.c.gates[g].fanins[i].gate) + 1)
    requires WiresOwned(G, W, x.c.gates[g].fanins[..i])
    requires Built(x, G', W') && x.c.gates[g].fanins[i].gate in W'
    ensures Grown(x, G0, W0, G', W', x.rank(g))
    ensures var ws := x.c.gates[g].fanins;
            && WiresOwned(G', W', ws[..i + 1]) && W'[ws[i].gate] in G'.blocks
            && MaxInputDepth(G', W', ws[..i + 1])
               == Max(MaxInputDepth(G, W, ws[..i]), G'.blocks[W'[ws[i].gate]].inputDepth)
            && FaninBlocks(W', ws[..i + 1]) == FaninBlocks(W, ws[..i]) + {W'[ws[i].gate]}
  {
    hide Built, RightBlock, MaxInputDepth;
    var ws := x.c.gates[g].fanins;
    GrownTransitive(x, G0, W0, G, W, G', W', x.rank(ws[i].gate) + 1, x.rank(g));
    MaxInputDepthStays(G, W, G', W', ws[..i]);
    FaninBlocksStay(G, W, G', W', ws[..i]);
    OwnerIsBlock(x, G', W', ws[i].gate);
    assert ws[..i + 1] == ws[..i] + [ws[i]];
    MaxInputDepthStep(G', W', ws, i);
  }

  lemma BlockForGate(x: Context, G: Graph, G': Graph, W: Owners, b: BlockId, g: GateId)
    requires Built(x, G, W) && g in x.c.gates && g !in W && g in x.outs && FaninsOwned(x, G, W, g)
    requires x.c.gates[g].op != INPUT && x.c.gates[g].op != OUTPUT
    requires if x.c.gates[g].fanins == [] then b == ROOT && G' == G
             else var k := Key(MaxInputDepth(G, W, x.c.gates[g].fanins), x.outs[g]);
                  if k in G.gateBlocks then G' == G && b == G.gateBlocks[k]
                  else G' == WithBlock(G, k) && b == G.idCounter
    ensures CanJoin(x, G', W, b, g) && Extends(G, W, G', W)
  {
    hide Prepared, MembersOk, WiringOk, HeightsOk, CallBlocksOk, OwnersOk, MaxInputDepth;
    if x.c.gates[g].fanins == [] {
      NoResult(x, g);
      RootIsRight(x, G, W, g);
    } else {
      var k := Key(MaxInputDepth(G, W, x.c.gates[g].fanins), x.outs[g]);
      if k !in G.gateBlocks {
        NewBlockKeepsBuilt(x, G, W, k);
      }
      assert KeyOk(G', k);
      NoResult(x, g);
      MaxInputDepthStays(G, W, G', W, x.c.gates[g].fanins);
    }
  }

  lemma NoResult(x: Context, g: GateId)
    requires Prepared(x) && g in x.c.gates && x.c.gates[g].op != INPUT
    ensures !IsCallResult(x.c, g) && x.outs.Keys == x.c.gates.Keys
  {
  }

  lemma RootIsRight(x: Context, G: Graph, W: Owners, g: GateId)
    requires Built(x, G, W) && g in x.c.gates && x.c.gates[g].fanins == [] && x.c.gates[g].op != OUTPUT
    requires !IsCallResult(x.c, g)
    ensures x.outs.Keys == x.c.gates.Keys && RightBlock(x, G, W, ROOT, g) && ROOT in G.blocks && G.blocks[ROOT].GateBlock?
    ensures Extends(G, W, G, W)
  {
    hide MembersOk, WiringOk, HeightsOk, CallBlocksOk, OwnersOk, KeysOk;
  }

  lemma OutputHasFanin(x: Context, g: GateId)
    requires Prepared(x) && g in x.c.gates && x.c.gates[g].op == OUTPUT
    ensures |x.c.gates[g].fanins| == 1
  {
  }

  lemma BlockForInput(x: Context, G: Graph, W: Owners, g: GateId)
    requires Built(x, G, W) && g in x.c.gates && g !in W && x.c.gates[g].op == INPUT && !IsCallResult(x.c, g)
    ensures CanJoin(x, G, W, ROOT, g)
    ensures WithFanins(G, ROOT, FaninBlocks(W, x.c.gates[g].fanins) - {ROOT}) == G
  {
    hide Built, RightBlock;
    BuiltIsPrepared(x, G, W);
    InputHasNoFanins(x, g);
    RootIsRight(x, G, W, g);
    assert FaninBlocks(W, []) == {};
    assert FaninBlocks(W, x.c.gates[g].fanins) - {ROOT} == {};
    WithNoFanins(G, ROOT);
  }

  lemma InputHasNoFanins(x: Context, g: GateId)
    requires WellFormed(x.c, x.rank) && g in x.c.gates && x.c.gates[g].op == INPUT
    ensures x.c.gates[g].fanins == []
  {
  }

  lemma BlockForOutput(x: Context, G: Graph, W: Owners, g: GateId)
    requires Built(x, G, W) && g in x.c.gates && g !in W && x.c.gates[g].op == OUTPUT && !IsCallArgument(x.c, g)
    requires |x.c.gates[g].fanins| == 1 && x.c.gates[g].fanins[0].gate in W
    ensures CanJoin(x, G, W, LEAF, g)
    ensures FaninBlocks(W, x.c.gates[g].fanins) - {LEAF} == {W[x.c.gates[g].fanins[0].gate]}
  {
    hide Built, RightBlock;
    var w := x.c.gates[g].fanins[0];
    assert x.c.gates[g].fanins == [w];
    assert Reads(x.c, g, w.gate);
    ReadGateOwner(x, G, W, g, w.gate);
    LeafIsRight(x, G, W, g);
  }

  lemma LeafIsRight(x: Context, G: Graph, W: Owners, g: GateId)
    requires Built(x, G, W) && g in x.c.gates && x.c.gates[g].op == OUTPUT && !IsCallArgument(x.c, g)
    requires FaninsOwned(x, G, W, g)
    ensures x.outs.Keys == x.c.gates.Keys && RightBlock(x, G, W, LEAF, g) && LEAF in G.blocks && G.blocks[LEAF].GateBlock?
    ensures !IsCallResult(x.c, g)
  {
    hide MembersOk, WiringOk, HeightsOk, CallBlocksOk, OwnersOk, KeysOk;
    BuiltIsPrepared(x, G, W);
    NoResult(x, g);
  }

  // ----- the arguments of a call -----

  ghost predicate DrivesOne(c: Circuit, args: seq<GateId>, f: GateId) {
    exists a :: a in args && a in c.gates && |c.gates[a].fanins| == 1 && Driver(c, a) == f
  }

  /** The drivers of the arguments have blocks, and these are the inputs and fanins collected. */
  ghost predicate CallRead(c: Circuit, W: Owners, args: seq<GateId>, faninBlocks: set<BlockId>, inputs: map<GateId, BlockId>) {
    && (forall a | a in args :: a in c.gates && |c.gates[a].fanins| == 1 && Driver(c, a) in inputs)
    && (forall f | f in inputs :: f in W && inputs[f] == W[f] && DrivesOne(c, args, f))
    && faninBlocks == inputs.Values
  }

  lemma OneMoreArgument(x: Context, G: Graph, W: Owners, G': Graph, W': Owners, args: seq<GateId>, i: nat,
                        faninBlocks: set<BlockId>, inputs: map<GateId, BlockId>)
    requires i < |args| && args[i] in x.c.gates && |x.c.gates[args[i]].fanins| == 1 && Extends(G, W, G', W')
    requires CallRead(x.c, W, args[..i], faninBlocks, inputs) && Driver(x.c, args[i]) in W'
    ensures var f := Driver(x.c, args[i]);
            CallRead(x.c, W', args[..i + 1], faninBlocks + {W'[f]}, inputs[f := W'[f]])
  {
    hide SameBlockHead, Driver;
    var f := Driver(x.c, args[i]);
    var inputs' := inputs[f := W'[f]];
    assert args[..i + 1] == args[..i] + [args[i]];
    assert DrivesOne(x.c, args[..i + 1], f);
    forall h | h in inputs'
      ensures h in W' && inputs'[h] == W'[h] && DrivesOne(x.c, args[..i + 1], h)
    {
      if h != f {
        var a :| a in args[..i] && a in x.c.gates && |x.c.gates[a].fanins| == 1 && Driver(x.c, a) == h;
        assert a in args[..i + 1];
      }
    }
    forall p
      ensures p in inputs'.Values <==> p in faninBlocks + {W'[f]}
    {
      if p in inputs.Values {
        var h :| h in inputs && inputs[h] == p;
        assert inputs'[h] == p;
      }
    }
  }

  lemma CallReadIsNew(x: Context, G: Graph, W: Owners, k: nat, depth: int, faninBlocks: set<BlockId>, inputs: map<GateId, BlockId>)
    requires CanAddCall(x, G, W, k, depth) && CallRead(x.c, W, x.c.calls[k].args, faninBlocks, inputs)
    ensures NewCallBlock(x.c, k, W, depth) == CallBlock(depth, faninBlocks, inputs, x.c.calls[k].name, x.c.calls[k].id)
    ensures G.idCounter !in faninBlocks
  {
    hide Built, Driver, CallsWellFormed, GatesWellFormed;
    forall f
      ensures f in inputs <==> f in Drivers(x.c, k)
    {
    }
    var B := NewCallBlock(x.c, k, W, depth);
    assert inputs == B.inputs;
    assert inputs.Values == B.fanins;
    forall f | f in inputs
      ensures inputs[f] in G.blocks && inputs[f] < G.idCounter
    {
      OwnerIsBlock(x, G, W, f);
    }
  }

  lemma NewCallFanins(x: Context, G: Graph, W: Owners, k: nat, depth: int, faninBlocks: set<BlockId>, inputs: map<GateId, BlockId>)
    requires CanAddCall(x, G, W, k, depth) && CallRead(x.c, W, x.c.calls[k].args, faninBlocks, inputs)
    ensures var call, b := x.c.calls[k], G.idCounter;
            WithFanins(Graph(b + 1, G.gateBlocks, G.callBlocks[call.id := b],
                             G.blocks[b := CallBlock(depth, {}, inputs, call.name, call.id)]), b, faninBlocks - {b})
            == WithCall(x.c, G, W, k, depth)
  {
    hide Built, WellFormed, NewCallBlock, CallRead;
    CallReadIsNew(x, G, W, k, depth, faninBlocks, inputs);
    var call, b := x.c.calls[k], G.idCounter;
    var B := NewCallBlock(x.c, k, W, depth);
    assert faninBlocks - {b} == faninBlocks && {} + faninBlocks == faninBlocks;
    assert G.blocks[b := CallBlock(depth, {}, inputs, call.name, call.id)][b := B] == G.blocks[b := B];
  }

  lemma NothingRead(c: Circuit, W: Owners)
    ensures CallRead(c, W, [], {}, map[])
  {
  }

  lemma CallCanBeAdded(x: Context, G0: Graph, W0: Owners, G: Graph, W: Owners, k: nat, g: GateId,
                       faninBlocks: set<BlockId>, inputs: map<GateId, BlockId>)
    requires Grown(x, G0, W0, G, W, x.rank(g)) && g !in W0 && Built(x, G, W) && IsResult(x.c, k, g) && g in x.depths
    requires CallRead(x.c, W, x.c.calls[k].args, faninBlocks, inputs)
    ensures CanAddCall(x, G, W, k, x.depths[g])
  {
    hide Built;
    BuiltIsPrepared(x, G, W);
    NotYetOwned(x, G0, W0, G, W, g);
    ResultsNotOwned(x, G, W, k, g);
    CallIsNew(x, G, W, k, g);
  }

  /** All return values of a call get their block together. */
  lemma OwnedTogether(x: Context, G: Graph, W: Owners, k: nat, r: GateId)
    requires Built(x, G, W) && IsResult(x.c, k, r) && r in W
    ensures forall r' | r' in x.c.calls[k].results :: r' in W
  {
    hide Built;
    BuiltIsPrepared(x, G, W);
    RightBlockOf(x, G, W, r);
    var l: nat :| IsResult(x.c, l, r) && IsBlockOfCall(x, G, W, W[r], l);
  }

  lemma ResultsNotOwned(x: Context, G: Graph, W: Owners, k: nat, g: GateId)
    requires Built(x, G, W) && IsResult(x.c, k, g) && g !in W
    ensures forall r | r in x.c.calls[k].results :: r !in W
  {
    hide Built;
    BuiltIsPrepared(x, G, W);
    forall r | r in x.c.calls[k].results
      ensures r !in W
    {
      if r in W {
        OwnedTogether(x, G, W, k, r);
      }
    }
  }

  /** Hence no call block is added twice. */
  lemma CallIsNew(x: Context, G: Graph, W: Owners, k: nat, g: GateId)
    requires Built(x, G, W) && IsResult(x.c, k, g) && g !in W
    ensures x.c.calls[k].id !in G.callBlocks
  {
    hide Prepared, KeysOk, OwnersOk, MembersOk, WiringOk, HeightsOk, WellFormed;
    BuiltIsPrepared(x, G, W);
    if x.c.calls[k].id in G.callBlocks {
      var b := G.callBlocks[x.c.calls[k].id];
      var l: nat :| IsBlockOfCall(x, G, W, b, l);
      CallIdsDistinct(x.c, x.rank, k, l);
    }
  }

  // ----- the whole construction -----

  lemma ContextIsPrepared(x: Context, top: nat)
    requires WellFormed(x.c, x.rank) && Bounded(x.c, x.rank, top) && Correct(x.c, x.rank, x.depths)
    requires SetsCorrect(x.c, x.rank, top, x.depths, x.outs) && x.outs.Keys == x.c.gates.Keys
    ensures Prepared(x)
  {
    hide WellFormed, Bounded, Correct, SetsCorrect, Outs;
    forall g, i: nat | g in x.c.gates && i < |x.c.gates[g].fanins|
      ensures OutsShrinkAt(x, g, i)
    {
      OutsShrink(x.c, x.rank, top, x.depths, g, i);
      SetOf(x.c, x.rank, top, x.depths, x.outs, g);
      SetOf(x.c, x.rank, top, x.depths, x.outs, x.c.gates[g].fanins[i].gate);
    }
  }

  /**
   Every circuit whose gates plus call edges are acyclic gets a graph in which every element that was
   visited has its one block and, by BlockGraphIsAcyclic, no path comes back.
   */
  method BuildParallelExecutionGraph(c: Circuit, ghost rank: GateId -> nat, ghost top: nat)
    returns (graph: ParallelExecutionGraph, owners: Owners, ghost x: Context)
    requires WellFormed(c, rank) && Bounded(c, rank, top)
    ensures x.c == c && x.rank == rank && Built(x, graph.View(), owners)
    ensures Correct(c, rank, x.depths) && Settled(c, rank, x.depths, {}) && SetsCorrect(c, rank, top, x.depths, x.outs)
    ensures forall o | o in c.outputs :: o in owners
    ensures forall path | IsBlockPath(graph.View(), path) && |path| > 1 :: path[0] != path[|path| - 1]
  {
    hide WellFormed, Bounded, Built, Prepared, Correct, SetsCorrect, Settled;
    var outputToCall := AssignOutputCalls(c, rank);
    var inputToCall := AssignInputCalls(c, rank);
    var depths := new DepthComputation(c, rank, inputToCall);
    depths.ComputeGateDepths();
    var closest := new ClosestOutputs(c, rank, top, outputToCall, depths.gateDepths);
    closest.AssignClosestOutputs();
    x := Context(c, rank, depths.gateDepths, closest.closest);
    ContextIsPrepared(x, top);
    var builder := new GraphBuilder(x, c, depths.gateDepths, closest.closest, inputToCall);
    builder.AssignOutputs();
    graph, owners := builder.graph, builder.owners;
    forall path | IsBlockPath(graph.View(), path) && |path| > 1
      ensures path[0] != path[|path| - 1]
    {
      BlockGraphIsAcyclic(x, graph.View(), owners, path);
    }
  }
}
