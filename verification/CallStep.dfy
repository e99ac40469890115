/** Adding the block of a function call to the parallel execution graph. */
module CallStep {
  import opened GateGraph
  import opened GateDepth
  import opened DepthSearch
  import opened OutputDepths
  import opened BlockGraph
  import opened BlockSteps

  ghost function Driver(c: Circuit, a: GateId): (f: GateId)
    requires a in c.gates && |c.gates[a].fanins| == 1
  {
    c.gates[a].fanins[0].gate
  }

  ghost function Drivers(c: Circuit, k: nat): (s: set<GateId>)
    requires k < |c.calls| && forall a | a in c.calls[k].args :: a in c.gates && |c.gates[a].fanins| == 1
  {
    set a | a in c.calls[k].args :: Driver(c, a)
  }

  lemma DriversDrive(c: Circuit, k: nat, f: GateId)
    requires k < |c.calls|
    requires forall a | a in c.calls[k].args :: a in c.gates && |c.gates[a].fanins| == 1
    ensures f in Drivers(c, k) <==> Drives(c, k, f)
  {
    if f in Drivers(c, k) {
      var a :| a in c.calls[k].args && Driver(c, a) == f;
      assert IsArgument(c, k, a) && Reads(c, a, f);
    }
    if Drives(c, k, f) {
      var a :| IsArgument(c, k, a) && Reads(c, a, f);
      assert Driver(c, a) == f;
    }
  }

  ghost function NewCallBlock(c: Circuit, k: nat, W: Owners, depth: int): (B: Block)
    requires k < |c.calls| && forall a | a in c.calls[k].args :: a in c.gates && |c.gates[a].fanins| == 1
    requires Drivers(c, k) <= W.Keys
  {
    CallBlock(depth, set f | f in Drivers(c, k) :: W[f], map f | f in Drivers(c, k) :: W[f],
              c.calls[k].name, c.calls[k].id)
  }

  ghost function WithCall(c: Circuit, G: Graph, W: Owners, k: nat, depth: int): (G': Graph)
    requires k < |c.calls| && forall a | a in c.calls[k].args :: a in c.gates && |c.gates[a].fanins| == 1
    requires Drivers(c, k) <= W.Keys
  {
    Graph(G.idCounter + 1, G.gateBlocks, G.callBlocks[c.calls[k].id := G.idCounter],
          G.blocks[G.idCounter := NewCallBlock(c, k, W, depth)])
  }

  ghost function WithResults(c: Circuit, W: Owners, k: nat, b: BlockId): (W': Owners)
    requires k < |c.calls|
  {
    W + map r | r in c.calls[k].results :: b
  }

  ghost predicate CanAddCall(x: Context, G: Graph, W: Owners, k: nat, depth: int) {
    && Built(x, G, W) && k < |x.c.calls| && WellFormed(x.c, x.rank)
    && (forall a | a in x.c.calls[k].args :: a in x.c.gates && |x.c.gates[a].fanins| == 1)
    && Drivers(x.c, k) <= W.Keys
    && x.c.calls[k].id !in G.callBlocks
    && (forall r | r in x.c.calls[k].results :: r !in W)
    && exists r :: r in x.c.calls[k].results && r in x.depths && x.depths[r] == depth
  }

  lemma CallExtends(x: Context, G: Graph, W: Owners, k: nat, depth: int)
    requires CanAddCall(x, G, W, k, depth)
    ensures Extends(G, W, WithCall(x.c, G, W, k, depth), WithResults(x.c, W, k, G.idCounter))
  {
    hide WellFormed, Prepared, CallBlocksOk, OwnersOk, WiringOk, HeightsOk, MembersOk, KeysOk, NewCallBlock;
  }

  lemma CallKeys(x: Context, G: Graph, W: Owners, k: nat, depth: int)
    requires CanAddCall(x, G, W, k, depth)
    ensures IdsOk(WithCall(x.c, G, W, k, depth)) && KeysOk(WithCall(x.c, G, W, k, depth))
  {
    hide WellFormed, Prepared, CallBlocksOk, OwnersOk, WiringOk, HeightsOk, MembersOk, NewCallBlock;
    var G' := WithCall(x.c, G, W, k, depth);
    CallBlockShape(x.c, k, W, depth);
    forall j | j in G'.gateBlocks
      ensures KeyOk(G', j)
    {
      assert KeyOk(G, j);
    }
    forall b | b in G'.blocks && 2 <= b && G'.blocks[b].GateBlock?
      ensures HasKey(G', b)
    {
      assert HasKey(G, b);
    }
  }

  lemma NewBlockOfCall(x: Context, G: Graph, W: Owners, k: nat, depth: int)
    requires CanAddCall(x, G, W, k, depth)
    ensures IsBlockOfCall(x, WithCall(x.c, G, W, k, depth), WithResults(x.c, W, k, G.idCounter), G.idCounter, k)
  {
    hide WellFormed, Prepared, CallBlocksOk, OwnersOk, WiringOk, HeightsOk, MembersOk, KeysOk;
  }

  lemma CallKeepsCallBlocks(x: Context, G: Graph, W: Owners, k: nat, depth: int)
    requires CanAddCall(x, G, W, k, depth)
    ensures CallBlocksOk(x, WithCall(x.c, G, W, k, depth), WithResults(x.c, W, k, G.idCounter))
  {
    hide WellFormed, Prepared, OwnersOk, WiringOk, HeightsOk, MembersOk, KeysOk, IsBlockOfCall;
    var G', W' := WithCall(x.c, G, W, k, depth), WithResults(x.c, W, k, G.idCounter);
    CallExtends(x, G, W, k, depth);
    NewBlockOfCall(x, G, W, k, depth);
    forall b | b in G'.blocks && G'.blocks[b].CallBlock?
      ensures G'.blocks[b].callId in G'.callBlocks && G'.callBlocks[G'.blocks[b].callId] == b
      ensures exists l: nat :: IsBlockOfCall(x, G', W', b, l)
    {
      if b != G.idCounter {
        var l: nat :| IsBlockOfCall(x, G, W, b, l);
        BlockOfCallStays(x, G, W, G', W', b, l);
      }
    }
  }

  lemma CallKeepsOwners(x: Context, G: Graph, W: Owners, k: nat, depth: int)
    requires CanAddCall(x, G, W, k, depth) && x.outs.Keys == x.c.gates.Keys
    ensures OwnersOk(x, WithCall(x.c, G, W, k, depth), WithResults(x.c, W, k, G.idCounter))
  {
    hide WellFormed, Prepared, CallBlocksOk, WiringOk, HeightsOk, MembersOk, KeysOk, IsBlockOfCall, RightBlock;
    var G', W' := WithCall(x.c, G, W, k, depth), WithResults(x.c, W, k, G.idCounter);
    CallExtends(x, G, W, k, depth);
    OwnersStay(x, G, W, G', W');
    forall g | g in W'
      ensures RightBlock(x, G', W', W'[g], g)
    {
      if g !in W {
        ResultsRightBlock(x, G, W, k, depth, g);
      }
    }
  }

  lemma ResultsRightBlock(x: Context, G: Graph, W: Owners, k: nat, depth: int, r: GateId)
    requires CanAddCall(x, G, W, k, depth) && x.outs.Keys == x.c.gates.Keys && r in x.c.calls[k].results
    ensures RightBlock(x, WithCall(x.c, G, W, k, depth), WithResults(x.c, W, k, G.idCounter), G.idCounter, r)
  {
    hide Prepared, CallBlocksOk, WiringOk, HeightsOk, MembersOk, KeysOk, OwnersOk, IsBlockOfCall, Mirrored, CallsRanked;
    NewBlockOfCall(x, G, W, k, depth);
    assert IsResult(x.c, k, r);
    assert x.c.gates[r].fanins == [];
  }

  lemma CallKeepsMembers(x: Context, G: Graph, W: Owners, k: nat, depth: int)
    requires CanAddCall(x, G, W, k, depth)
    ensures MembersOk(WithCall(x.c, G, W, k, depth), WithResults(x.c, W, k, G.idCounter))
  {
    hide WellFormed, Prepared, CallBlocksOk, OwnersOk, WiringOk, HeightsOk, KeysOk, NewCallBlock;
    assert NewCallBlock(x.c, k, W, depth).CallBlock? by {
      CallBlockShape(x.c, k, W, depth);
    }
  }

  lemma CallBlockShape(c: Circuit, k: nat, W: Owners, depth: int)
    requires k < |c.calls| && forall a | a in c.calls[k].args :: a in c.gates && |c.gates[a].fanins| == 1
    requires Drivers(c, k) <= W.Keys
    ensures NewCallBlock(c, k, W, depth).CallBlock?
  {
  }

  lemma NewCallWiring(x: Context, G: Graph, W: Owners, k: nat, depth: int)
    requires CanAddCall(x, G, W, k, depth)
    ensures var B := NewCallBlock(x.c, k, W, depth);
            InputsOk(x, B, WithResults(x.c, W, k, G.idCounter)) && FaninsOk(B)
  {
    hide Built, GatesWellFormed, CallsRanked, Drivers, Drives;
    var B := NewCallBlock(x.c, k, W, depth);
    forall f
      ensures f in B.inputs <==> IsBlockInput(x, B, f)
    {
      DriversDrive(x.c, k, f);
      assert forall l: nat | l < |x.c.calls| && x.c.calls[l].id == x.c.calls[k].id :: l == k;
    }
  }

  lemma CallKeepsWiring(x: Context, G: Graph, W: Owners, k: nat, depth: int)
    requires CanAddCall(x, G, W, k, depth)
    ensures WiringOk(x, WithCall(x.c, G, W, k, depth), WithResults(x.c, W, k, G.idCounter))
  {
    hide WellFormed, Prepared, CallBlocksOk, OwnersOk, MembersOk, HeightsOk, KeysOk, NewCallBlock, IsBlockInput;
    var G', W' := WithCall(x.c, G, W, k, depth), WithResults(x.c, W, k, G.idCounter);
    NewCallWiring(x, G, W, k, depth);
    forall b | b in G'.blocks
      ensures InputsOk(x, G'.blocks[b], W') && FaninsOk(G'.blocks[b])
    {
      assert b == G.idCounter || (InputsOk(x, G.blocks[b], W) && FaninsOk(G.blocks[b]));
    }
  }

  lemma CallKeepsHeights(x: Context, G: Graph, W: Owners, k: nat, depth: int)
    requires CanAddCall(x, G, W, k, depth)
    ensures HeightsOk(x, WithCall(x.c, G, W, k, depth))
  {
    hide WellFormed, Prepared, CallBlocksOk, OwnersOk, WiringOk, MembersOk, KeysOk, NewCallBlock, HeightOk;
    CallBlockShape(x.c, k, W, depth);
  }

  lemma CallKeepsBuilt(x: Context, G: Graph, W: Owners, k: nat, depth: int)
    requires CanAddCall(x, G, W, k, depth)
    ensures var G', W' := WithCall(x.c, G, W, k, depth), WithResults(x.c, W, k, G.idCounter);
            Built(x, G', W') && Extends(G, W, G', W') && IsBlockOfCall(x, G', W', G.idCounter, k)
  {
    hide WellFormed, Prepared, CallBlocksOk, OwnersOk, WiringOk, MembersOk, KeysOk, NewCallBlock, IsBlockOfCall, HeightsOk;
    PreparedKeys(x);
    CallExtends(x, G, W, k, depth);
    CallKeys(x, G, W, k, depth);
    NewBlockOfCall(x, G, W, k, depth);
    CallKeepsCallBlocks(x, G, W, k, depth);
    CallKeepsOwners(x, G, W, k, depth);
    CallKeepsMembers(x, G, W, k, depth);
    CallKeepsWiring(x, G, W, k, depth);
    CallKeepsHeights(x, G, W, k, depth);
  }
}
