/** The three ways in which the parallel execution graph grows, and that each keeps it well built. */
module BlockSteps {
  import opened Basics
  import opened GateGraph
  import opened GateDepth
  import opened DepthSearch
  import opened OutputDepths
  import opened BlockGraph

  // ----- a new, empty gate block -----

  function WithBlock(G: Graph, k: Key): (G': Graph) {
    Graph(G.idCounter + 1, G.gateBlocks[k := G.idCounter], G.callBlocks,
          G.blocks[G.idCounter := EmptyBlock(k.inputDepth, k.outputDepths)])
  }

  lemma NewBlockExtends(G: Graph, W: Owners, k: Key)
    requires IdsOk(G)
    ensures Extends(G, W, WithBlock(G, k), W)
  {
  }

  lemma NewBlockKeys(G: Graph, k: Key)
    requires IdsOk(G) && KeysOk(G) && k !in G.gateBlocks
    ensures IdsOk(WithBlock(G, k)) && KeysOk(WithBlock(G, k))
  {
    var G' := WithBlock(G, k);
    forall j | j in G'.gateBlocks
      ensures KeyOk(G', j)
    {
      if j != k {
        assert KeyOk(G, j);
      }
    }
    forall b | b in G'.blocks && 2 <= b && G'.blocks[b].GateBlock?
      ensures HasKey(G', b)
    {
      if b != G.idCounter {
        assert HasKey(G, b);
      }
    }
  }

  lemma CallBlocksStay(x: Context, G: Graph, W: Owners, G': Graph, W': Owners)
    requires Extends(G, W, G', W') && CallBlocksOk(x, G, W) && G'.callBlocks == G.callBlocks
    requires forall b | b in G'.blocks && G'.blocks[b].CallBlock? :: b in G.blocks && G.blocks[b].CallBlock?
    ensures CallBlocksOk(x, G', W')
  {
    hide IsBlockOfCall;
    forall b | b in G'.blocks && G'.blocks[b].CallBlock?
      ensures exists k: nat :: IsBlockOfCall(x, G', W', b, k)
    {
      var k: nat :| IsBlockOfCall(x, G, W, b, k);
      BlockOfCallStays(x, G, W, G', W', b, k);
    }
  }

  lemma OwnersStay(x: Context, G: Graph, W: Owners, G': Graph, W': Owners)
    requires x.outs.Keys == x.c.gates.Keys && Extends(G, W, G', W') && OwnersOk(x, G, W)
    ensures forall g | g in W :: RightBlock(x, G', W', W[g], g)
  {
    hide RightBlock;
    forall g | g in W
      ensures RightBlock(x, G', W', W[g], g)
    {
      RightBlockStays(x, G, W, G', W', W[g], g);
    }
  }

  lemma NewBlockKeepsBuilt(x: Context, G: Graph, W: Owners, k: Key)
    requires Built(x, G, W) && k !in G.gateBlocks
    ensures Built(x, WithBlock(G, k), W) && Extends(G, W, WithBlock(G, k), W)
  {
    hide Prepared, RightBlock, IsBlockOfCall, KeyOk, HasKey;
    var G' := WithBlock(G, k);
    NewBlockExtends(G, W, k);
    NewBlockKeys(G, k);
    CallBlocksStay(x, G, W, G', W);
    assert x.outs.Keys == x.c.gates.Keys by {
      PreparedKeys(x);
    }
    OwnersStay(x, G, W, G', W);
    NewBlockMembers(x, G, W, k);
    NewBlockWiring(x, G, W, k);
    NewBlockHeights(x, G, k);
  }

  lemma PreparedKeys(x: Context)
    requires Prepared(x)
    ensures x.outs.Keys == x.c.gates.Keys
  {
  }

  lemma OwnerIsOld(x: Context, G: Graph, W: Owners, g: GateId)
    requires x.outs.Keys == x.c.gates.Keys && IdsOk(G) && OwnersOk(x, G, W) && g in W
    ensures W[g] in G.blocks && W[g] != G.idCounter
  {
    hide FaninsOwned, IsBlockOfCall, MaxInputDepth, IsCallResult, IsCallArgument;
    assert RightBlock(x, G, W, W[g], g);
  }

  lemma NewBlockMembers(x: Context, G: Graph, W: Owners, k: Key)
    requires Prepared(x) && IdsOk(G) && OwnersOk(x, G, W) && MembersOk(G, W)
    ensures MembersOk(WithBlock(G, k), W)
  {
    hide OwnersOk, IdsOk;
    PreparedKeys(x);
    hide Prepared;
    forall g | g in W
      ensures W[g] != G.idCounter
    {
      OwnerIsOld(x, G, W, g);
    }
  }

  lemma NewBlockWiring(x: Context, G: Graph, W: Owners, k: Key)
    requires IdsOk(G) && WiringOk(x, G, W)
    ensures WiringOk(x, WithBlock(G, k), W)
  {
  }

  lemma NewBlockHeights(x: Context, G: Graph, k: Key)
    requires IdsOk(G) && HeightsOk(x, G)
    ensures HeightsOk(x, WithBlock(G, k))
  {
    assert NonLinearMembers(x.c, map[]) == {};
  }

  // ----- a gate joins a gate block -----

  function Sources(ws: seq<Wire>): (s: set<GateId>) {
    set w | w in ws :: w.gate
  }

  /** The gates outside a block that the wires come from, with their owners. */
  ghost function AddedInputs(local: map<GateId, int>, ws: seq<Wire>, W: Owners): (m: map<GateId, BlockId>)
    requires forall w | w in ws :: w.gate in W
  {
    map f | f in Sources(ws) && f !in local :: W[f]
  }

  ghost function JoinedBlock(c: Circuit, B: Block, W: Owners, b: BlockId, g: GateId): (B': Block)
    requires B.GateBlock? && g in c.gates && forall w | w in c.gates[g].fanins :: w.gate in W
  {
    var d := NonLinear(c, g) + MaxLocal(B.localDepths, c.gates[g].fanins);
    B.(fanins := B.fanins + (set w | w in c.gates[g].fanins && W[w.gate] != b :: W[w.gate]),
       inputs := B.inputs + AddedInputs(B.localDepths, c.gates[g].fanins, W),
       localDepths := B.localDepths[g := d],
       nonLinearGates := B.nonLinearGates + NonLinear(c, g),
       nonLinearHeight := Max(B.nonLinearHeight, d))
  }

  ghost predicate CanJoin(x: Context, G: Graph, W: Owners, b: BlockId, g: GateId) {
    && Built(x, G, W) && g !in W && RightBlock(x, G, W, b, g) && !IsCallResult(x.c, g)
    && FaninsOwned(x, G, W, g) && b in G.blocks && G.blocks[b].GateBlock?
  }

  ghost function WithGate(c: Circuit, G: Graph, W: Owners, b: BlockId, g: GateId): (G': Graph)
    requires b in G.blocks && G.blocks[b].GateBlock?
    requires g in c.gates && forall w | w in c.gates[g].fanins :: w.gate in W
  {
    G.(blocks := G.blocks[b := JoinedBlock(c, G.blocks[b], W, b, g)])
  }

  /** No member of a block reads a gate that has no block yet. */
  lemma MembersDoNotRead(x: Context, G: Graph, W: Owners, b: BlockId, g: GateId, h: GateId)
    requires x.outs.Keys == x.c.gates.Keys && OwnersOk(x, G, W) && MembersOk(G, W)
    requires g !in W && b in G.blocks && G.blocks[b].GateBlock? && h in G.blocks[b].localDepths
    ensures h in x.c.gates && forall w | w in x.c.gates[h].fanins :: w.gate != g
    ensures !Reads(x.c, h, g)
  {
    assert RightBlock(x, G, W, W[h], h);
  }

  lemma NoSelfRead(x: Context, g: GateId)
    requires Prepared(x) && g in x.c.gates
    ensures forall w | w in x.c.gates[g].fanins :: w.gate != g
    ensures !Reads(x.c, g, g)
  {
    forall w | w in x.c.gates[g].fanins
      ensures w.gate != g
    {
      assert x.rank(w.gate) < x.rank(g);
    }
  }

  lemma JoinExtends(x: Context, G: Graph, W: Owners, b: BlockId, g: GateId)
    requires CanJoin(x, G, W, b, g)
    ensures Extends(G, W, WithGate(x.c, G, W, b, g), W[g := b])
  {
    hide Built, RightBlock, MaxLocal;
  }

  lemma JoinKeys(x: Context, G: Graph, W: Owners, b: BlockId, g: GateId)
    requires CanJoin(x, G, W, b, g)
    ensures IdsOk(WithGate(x.c, G, W, b, g)) && KeysOk(WithGate(x.c, G, W, b, g))
  {
    hide Prepared, CallBlocksOk, OwnersOk, WiringOk, HeightsOk, MembersOk, RightBlock, MaxLocal;
    var G' := WithGate(x.c, G, W, b, g);
    forall j | j in G'.gateBlocks
      ensures KeyOk(G', j)
    {
      assert KeyOk(G, j);
    }
    forall b' | b' in G'.blocks && 2 <= b' && G'.blocks[b'].GateBlock?
      ensures HasKey(G', b')
    {
      assert HasKey(G, b');
    }
  }

  lemma JoinOwners(x: Context, G: Graph, W: Owners, b: BlockId, g: GateId)
    requires CanJoin(x, G, W, b, g) && x.outs.Keys == x.c.gates.Keys
    ensures OwnersOk(x, WithGate(x.c, G, W, b, g), W[g := b])
  {
    hide RightBlock, Prepared, CallBlocksOk, WiringOk, HeightsOk, MembersOk, IdsOk, KeysOk;
    var G', W' := WithGate(x.c, G, W, b, g), W[g := b];
    JoinExtends(x, G, W, b, g);
    OwnersStay(x, G, W, G', W');
    RightBlockStays(x, G, W, G', W', b, g);
  }

  lemma JoinMembers(x: Context, G: Graph, W: Owners, b: BlockId, g: GateId)
    requires CanJoin(x, G, W, b, g)
    ensures MembersOk(WithGate(x.c, G, W, b, g), W[g := b])
  {
    hide Prepared, CallBlocksOk, OwnersOk, WiringOk, HeightsOk, IdsOk, KeysOk;
  }

  lemma ReadsIsFanin(c: Circuit, g: GateId, f: GateId)
    requires g in c.gates
    ensures Reads(c, g, f) <==> f in Sources(c.gates[g].fanins)
    ensures Reads(c, g, f) <==> exists w :: w in c.gates[g].fanins && w.gate == f
  {
    if Reads(c, g, f) {
      var i: nat :| i < |c.gates[g].fanins| && c.gates[g].fanins[i].gate == f;
      assert c.gates[g].fanins[i] in c.gates[g].fanins;
    }
  }

  lemma JoinedInputAt(x: Context, B: Block, B': Block, g: GateId, f: GateId)
    requires B.GateBlock? && B'.GateBlock? && B'.localDepths.Keys == B.localDepths.Keys + {g}
    requires f in B.inputs <==> IsBlockInput(x, B, f)
    requires f in B'.inputs <==> f in B.inputs || (Reads(x.c, g, f) && f !in B.localDepths)
    requires f == g ==> !Reads(x.c, g, f) && forall h | h in B.localDepths :: !Reads(x.c, h, f)
    ensures f in B'.inputs <==> IsBlockInput(x, B', f)
  {
    hide Reads;
    if IsBlockInput(x, B, f) {
      var h :| h in B.localDepths && Reads(x.c, h, f);
      assert h in B'.localDepths;
    }
    if Reads(x.c, g, f) {
      assert g in B'.localDepths;
    }
  }

  lemma NobodyReads(x: Context, G: Graph, W: Owners, b: BlockId, g: GateId)
    requires CanJoin(x, G, W, b, g) && x.outs.Keys == x.c.gates.Keys
    ensures !Reads(x.c, g, g) && forall h | h in G.blocks[b].localDepths :: !Reads(x.c, h, g)
  {
    hide RightBlock, CallBlocksOk, HeightsOk, IdsOk, KeysOk, Prepared, OwnersOk, MembersOk, Reads;
    NoSelfRead(x, g);
    forall h | h in G.blocks[b].localDepths
      ensures !Reads(x.c, h, g)
    {
      MembersDoNotRead(x, G, W, b, g, h);
    }
  }

  lemma JoinedInputValues(c: Circuit, B: Block, W: Owners, b: BlockId, g: GateId)
    requires B.GateBlock? && g in c.gates && g !in W && forall w | w in c.gates[g].fanins :: w.gate in W
    requires forall f | f in B.inputs :: f in W && B.inputs[f] == W[f]
    ensures var B' := JoinedBlock(c, B, W, b, g); forall f | f in B'.inputs :: f in W && f != g && B'.inputs[f] == W[f]
  {
    hide MaxLocal;
  }

  lemma JoinedInputKey(x: Context, G: Graph, W: Owners, b: BlockId, g: GateId, f: GateId)
    requires CanJoin(x, G, W, b, g) && x.outs.Keys == x.c.gates.Keys
    ensures var B' := JoinedBlock(x.c, G.blocks[b], W, b, g); f in B'.inputs <==> IsBlockInput(x, B', f)
  {
    hide RightBlock, CallBlocksOk, HeightsOk, IdsOk, KeysOk, Prepared, MaxLocal, Reads, OwnersOk, MembersOk, IsBlockInput;
    var B := G.blocks[b];
    assert InputsOk(x, B, W);
    hide WiringOk;
    ReadsIsFanin(x.c, g, f);
    if f == g {
      NobodyReads(x, G, W, b, g);
    }
    JoinedInputAt(x, B, JoinedBlock(x.c, B, W, b, g), g, f);
  }

  lemma JoinedInputs(x: Context, G: Graph, W: Owners, b: BlockId, g: GateId)
    requires CanJoin(x, G, W, b, g) && x.outs.Keys == x.c.gates.Keys
    ensures InputsOk(x, JoinedBlock(x.c, G.blocks[b], W, b, g), W[g := b])
  {
    hide RightBlock, CallBlocksOk, HeightsOk, IdsOk, KeysOk, Prepared, MaxLocal, Reads, OwnersOk, MembersOk, IsBlockInput, JoinedBlock;
    assert InputsOk(x, G.blocks[b], W);
    hide WiringOk;
    JoinedInputValues(x.c, G.blocks[b], W, b, g);
    forall f
      ensures var B' := JoinedBlock(x.c, G.blocks[b], W, b, g); f in B'.inputs <==> IsBlockInput(x, B', f)
    {
      JoinedInputKey(x, G, W, b, g, f);
    }
  }

  lemma JoinedFanins(x: Context, G: Graph, W: Owners, b: BlockId, g: GateId)
    requires CanJoin(x, G, W, b, g)
    ensures FaninsOk(JoinedBlock(x.c, G.blocks[b], W, b, g))
  {
    hide RightBlock, CallBlocksOk, HeightsOk, IdsOk, KeysOk, Prepared, OwnersOk, MaxLocal, IsBlockInput;
    var B := G.blocks[b];
    var B' := JoinedBlock(x.c, B, W, b, g);
    assert InputsOk(x, B, W) && FaninsOk(B);
    forall p
      ensures p in B'.fanins <==> exists f :: f in B'.inputs && B'.inputs[f] == p
    {
      if p in B'.fanins {
        if p in B.fanins {
          var f :| f in B.inputs && B.inputs[f] == p;
          assert f in B'.inputs && B'.inputs[f] == p;
        } else {
          var w :| w in x.c.gates[g].fanins && W[w.gate] != b && W[w.gate] == p;
          assert w.gate in Sources(x.c.gates[g].fanins);
          assert w.gate in B'.inputs && B'.inputs[w.gate] == p;
        }
      }
      if f :| f in B'.inputs && B'.inputs[f] == p {
        if f in Sources(x.c.gates[g].fanins) && f !in B.localDepths {
          var w :| w in x.c.gates[g].fanins && w.gate == f;
          assert W[w.gate] != b;
        }
      }
    }
  }

  lemma JoinWiring(x: Context, G: Graph, W: Owners, b: BlockId, g: GateId)
    requires CanJoin(x, G, W, b, g) && x.outs.Keys == x.c.gates.Keys
    ensures WiringOk(x, WithGate(x.c, G, W, b, g), W[g := b])
  {
    hide RightBlock, CallBlocksOk, HeightsOk, IdsOk, KeysOk, Prepared, OwnersOk, MembersOk, IsBlockInput, JoinedBlock;
    var G' := WithGate(x.c, G, W, b, g);
    JoinedInputs(x, G, W, b, g);
    JoinedFanins(x, G, W, b, g);
    forall b' | b' in G'.blocks
      ensures InputsOk(x, G'.blocks[b'], W[g := b]) && FaninsOk(G'.blocks[b'])
    {
      assert b' == b || (InputsOk(x, G.blocks[b'], W) && FaninsOk(G.blocks[b']));
    }
  }

  lemma {:induction false} MaxLocalStays(local: map<GateId, int>, g: GateId, d: int, ws: seq<Wire>)
    requires forall w | w in ws :: w.gate != g
    ensures MaxLocal(local[g := d], ws) == MaxLocal(local, ws)
    decreases |ws|
  {
    if ws != [] {
      MaxLocalStays(local, g, d, ws[..|ws| - 1]);
    }
  }

  lemma JoinedMembers(x: Context, G: Graph, W: Owners, b: BlockId, g: GateId)
    requires CanJoin(x, G, W, b, g)
    ensures var B, B' := G.blocks[b], JoinedBlock(x.c, G.blocks[b], W, b, g);
            && g !in B.localDepths && g !in NonLinearMembers(x.c, B.localDepths)
            && NonLinearMembers(x.c, B'.localDepths)
               == NonLinearMembers(x.c, B.localDepths) + if NonLinear(x.c, g) == 1 then {g} else {}
  {
    hide RightBlock, CallBlocksOk, HeightsOk, IdsOk, KeysOk, Prepared, OwnersOk, WiringOk, MaxLocal;
  }

  lemma JoinedHeight(x: Context, G: Graph, W: Owners, b: BlockId, g: GateId)
    requires CanJoin(x, G, W, b, g) && x.outs.Keys == x.c.gates.Keys
    ensures HeightOk(x, JoinedBlock(x.c, G.blocks[b], W, b, g))
  {
    hide RightBlock, CallBlocksOk, IdsOk, KeysOk, Prepared, WiringOk, NonLinearMembers, MaxLocal;
    var B := G.blocks[b];
    var B' := JoinedBlock(x.c, B, W, b, g);
    var d := B'.localDepths[g];
    assert HeightOk(x, B);
    JoinedMembers(x, G, W, b, g);
    NoSelfRead(x, g);
    forall h | h in B'.localDepths
      ensures h in x.c.gates
      ensures B'.localDepths[h] == NonLinear(x.c, h) + MaxLocal(B'.localDepths, x.c.gates[h].fanins)
      ensures B'.localDepths[h] <= B'.nonLinearHeight
    {
      if h != g {
        MembersDoNotRead(x, G, W, b, g, h);
      }
      MaxLocalStays(B.localDepths, g, d, x.c.gates[h].fanins);
    }
    JoinedHeightReached(x, G, W, b, g);
  }

  lemma JoinedHeightReached(x: Context, G: Graph, W: Owners, b: BlockId, g: GateId)
    requires CanJoin(x, G, W, b, g) && HeightOk(x, G.blocks[b])
    ensures var B' := JoinedBlock(x.c, G.blocks[b], W, b, g);
            B'.nonLinearHeight == 0 || exists h :: h in B'.localDepths && B'.localDepths[h] == B'.nonLinearHeight
  {
    hide RightBlock, CallBlocksOk, IdsOk, KeysOk, Prepared, WiringOk, OwnersOk, NonLinearMembers, MaxLocal;
    var B := G.blocks[b];
    var B' := JoinedBlock(x.c, B, W, b, g);
    if B'.nonLinearHeight == B'.localDepths[g] {
    } else if B.nonLinearHeight != 0 {
      var h :| h in B.localDepths && B.localDepths[h] == B.nonLinearHeight;
      assert h in B'.localDepths && (h == g || B'.localDepths[h] == B.nonLinearHeight);
      JoinedMembers(x, G, W, b, g);
    }
  }

  lemma JoinHeights(x: Context, G: Graph, W: Owners, b: BlockId, g: GateId)
    requires CanJoin(x, G, W, b, g) && x.outs.Keys == x.c.gates.Keys
    ensures HeightsOk(x, WithGate(x.c, G, W, b, g))
  {
    hide RightBlock, CallBlocksOk, IdsOk, KeysOk, Prepared, WiringOk, OwnersOk, MembersOk, HeightOk, JoinedBlock;
    JoinedHeight(x, G, W, b, g);
  }

  lemma JoinKeepsBuilt(x: Context, G: Graph, W: Owners, b: BlockId, g: GateId)
    requires CanJoin(x, G, W, b, g)
    ensures Built(x, WithGate(x.c, G, W, b, g), W[g := b])
    ensures Extends(G, W, WithGate(x.c, G, W, b, g), W[g := b])
  {
    hide Prepared, RightBlock, IsBlockOfCall, OwnersOk, WiringOk, HeightsOk, MembersOk;
    var G', W' := WithGate(x.c, G, W, b, g), W[g := b];
    PreparedKeys(x);
    JoinExtends(x, G, W, b, g);
    JoinKeys(x, G, W, b, g);
    CallBlocksStay(x, G, W, G', W');
    JoinOwners(x, G, W, b, g);
    JoinMembers(x, G, W, b, g);
    JoinWiring(x, G, W, b, g);
    JoinHeights(x, G, W, b, g);
  }
}
