/** Paths of gates through the blocks: none comes back to a block, and heights are path maxima. */
module BlockPaths {
  import opened GateGraph
  import opened GateDepth
  import opened DepthSearch
  import opened OutputDepths
  import opened BlockGraph
  import opened BlockSteps
  import opened BlockOrder

  /** The value of f is used for g: over a wire, or as an argument of the call that returns g. */
  ghost predicate Influences(c: Circuit, f: GateId, g: GateId) {
    Reads(c, g, f) || exists k: nat :: Drives(c, k, f) && IsResult(c, k, g)
  }

  ghost predicate IsInfluencePath(c: Circuit, p: seq<GateId>) {
    p != [] && forall i | 0 <= i < |p| - 1 :: Influences(c, p[i], p[i + 1])
  }

  lemma CallBlockOfResult(x: Context, G: Graph, W: Owners, k: nat, g: GateId)
    requires Built(x, G, W) && g in W && IsResult(x.c, k, g)
    ensures W[g] in G.blocks && G.blocks[W[g]].CallBlock? && G.blocks[W[g]].callId == x.c.calls[k].id
  {
    hide Built;
    BuiltIsWellFormed(x, G, W);
    RightBlockOf(x, G, W, g);
    var l: nat :| IsResult(x.c, l, g) && IsBlockOfCall(x, G, W, W[g], l);
  }

  lemma BuiltIsWellFormed(x: Context, G: Graph, W: Owners)
    requires Built(x, G, W)
    ensures WellFormed(x.c, x.rank)
  {
  }

  lemma BlockIsWired(x: Context, G: Graph, W: Owners, b: BlockId)
    requires Built(x, G, W) && b in G.blocks
    ensures InputsOk(x, G.blocks[b], W) && FaninsOk(G.blocks[b])
  {
    hide Prepared, IdsOk, KeysOk, CallBlocksOk, OwnersOk, MembersOk, HeightsOk, InputsOk, FaninsOk;
  }

  lemma ReadByOwned(x: Context, G: Graph, W: Owners, f: GateId, g: GateId)
    requires Built(x, G, W) && g in W && Reads(x.c, g, f)
    ensures f in W && W[f] in G.blocks && W[g] in G.blocks
    ensures W[f] == W[g] || Precedes(G, W[f], W[g])
  {
    hide Built, IsBlockOfCall, IsCallResult;
    RightBlockOf(x, G, W, g);
    var i: nat :| i < |x.c.gates[g].fanins| && x.c.gates[g].fanins[i].gate == f;
    assert x.c.gates[g].fanins[i] in x.c.gates[g].fanins;
    ReaderIsMember(x, G, W, g);
    if W[f] != W[g] {
      NotMember(x, G, W, W[g], f);
      EdgeIntoGateBlock(x, G, W, W[g], W[f], g, f);
    }
  }

  lemma NotMember(x: Context, G: Graph, W: Owners, b: BlockId, f: GateId)
    requires Built(x, G, W) && b in G.blocks && G.blocks[b].GateBlock? && f in W && W[f] != b
    ensures f !in G.blocks[b].localDepths
  {
  }

  lemma ReaderIsMember(x: Context, G: Graph, W: Owners, g: GateId)
    requires Built(x, G, W) && g in W && g in x.c.gates && x.c.gates[g].fanins != []
    ensures W[g] in G.blocks && G.blocks[W[g]].GateBlock? && g in G.blocks[W[g]].localDepths
  {
    hide Prepared, KeysOk, CallBlocksOk, WiringOk, HeightsOk, IsBlockOfCall;
    BuiltIsWellFormed(x, G, W);
    RightBlockOf(x, G, W, g);
  }

  lemma ArgumentOfOwned(x: Context, G: Graph, W: Owners, f: GateId, k: nat, g: GateId)
    requires Built(x, G, W) && g in W && Drives(x.c, k, f) && IsResult(x.c, k, g)
    ensures f in W && W[f] in G.blocks && W[g] in G.blocks && Precedes(G, W[f], W[g])
  {
    hide Built, InputsOk, FaninsOk, Drives;
    CallBlockOfResult(x, G, W, k, g);
    BlockIsWired(x, G, W, W[g]);
    InputIsOwned(x, G.blocks[W[g]], W, f);
    EdgeIntoCallBlock(x, G, W, W[g], W[f], f);
  }

  lemma InputIsOwned(x: Context, B: Block, W: Owners, f: GateId)
    requires InputsOk(x, B, W) && IsBlockInput(x, B, f)
    ensures f in W
  {
    hide IsBlockInput;
    assert f in B.inputs;
  }

  /** Along a path that ends in a visited gate everything was visited, and the blocks never go down. */
  lemma {:induction false} OwnersRise(x: Context, G: Graph, W: Owners, p: seq<GateId>)
    requires Built(x, G, W) && IsInfluencePath(x.c, p) && p[|p| - 1] in W
    ensures p[0] in W && W[p[0]] in G.blocks && W[p[|p| - 1]] in G.blocks
    ensures W[p[0]] == W[p[|p| - 1]] || Precedes(G, W[p[0]], W[p[|p| - 1]])
    decreases |p|
  {
    hide Built, Precedes, Reads, Drives, IsResult;
    RightBlockOf(x, G, W, p[|p| - 1]);
    if |p| > 1 {
      var t := p[1..];
      assert Influences(x.c, p[0], p[0 + 1]);
      forall i | 0 <= i < |t| - 1
        ensures Influences(x.c, t[i], t[i + 1])
      {
        assert Influences(x.c, p[i + 1], p[i + 1 + 1]);
      }
      OwnersRise(x, G, W, t);
      StepRises(x, G, W, p[0], p[1]);
      if Precedes(G, W[p[0]], W[p[1]]) && Precedes(G, W[p[1]], W[p[|p| - 1]]) {
        PrecedesIsTransitive(G, W[p[0]], W[p[1]], W[p[|p| - 1]]);
      }
    }
  }

  lemma StepRises(x: Context, G: Graph, W: Owners, f: GateId, g: GateId)
    requires Built(x, G, W) && Influences(x.c, f, g) && g in W
    ensures f in W && W[f] in G.blocks && W[g] in G.blocks
    ensures W[f] == W[g] || Precedes(G, W[f], W[g])
  {
    hide Built, Precedes, Reads, Drives, IsResult;
    if Reads(x.c, g, f) {
      ReadByOwned(x, G, W, f, g);
    } else {
      var k: nat :| Drives(x.c, k, f) && IsResult(x.c, k, g);
      ArgumentOfOwned(x, G, W, f, k, g);
    }
  }

  /** A path of gates that ends in the block it started in never left it. */
  lemma NoPathReenters(x: Context, G: Graph, W: Owners, p: seq<GateId>, m: nat)
    requires Built(x, G, W) && IsInfluencePath(x.c, p) && m < |p| && p[|p| - 1] in W
    requires p[0] in W && W[p[0]] == W[p[|p| - 1]]
    ensures p[m] in W && W[p[m]] == W[p[0]]
  {
    hide Built, Precedes, Influences;
    var front, back := p[..m + 1], p[m..];
    forall i | 0 <= i < |back| - 1
      ensures Influences(x.c, back[i], back[i + 1])
    {
      assert Influences(x.c, p[m + i], p[m + i + 1]);
    }
    OwnersRise(x, G, W, back);
    OwnersRise(x, G, W, front);
    if W[p[m]] != W[p[0]] {
      PrecedesIsTransitive(G, W[p[0]], W[p[m]], W[p[0]]);
      PrecedesIsIrreflexive(G, W[p[0]]);
    }
  }

  // ----- the height of a block -----

  /** A backward path of wires inside a block. */
  ghost predicate IsInnerPath(c: Circuit, B: Block, p: seq<GateId>)
    requires B.GateBlock?
  {
    && p != [] && (forall g | g in p :: g in B.localDepths && g in c.gates)
    && forall i | 0 <= i < |p| - 1 :: Reads(c, p[i], p[i + 1])
  }

  ghost function NonLinearOn(c: Circuit, p: seq<GateId>): (n: nat)
    requires forall g | g in p :: g in c.gates
  {
    if p == [] then 0 else NonLinear(c, p[0]) + NonLinearOn(c, p[1..])
  }

  lemma {:induction false} MaxLocalBounds(local: map<GateId, int>, ws: seq<Wire>, w: Wire)
    requires w in ws && w.gate in local
    ensures local[w.gate] <= MaxLocal(local, ws)
    decreases |ws|
  {
    if w != ws[|ws| - 1] {
      MaxLocalBounds(local, ws[..|ws| - 1], w);
    }
  }

  lemma {:induction false} MaxLocalReached(local: map<GateId, int>, ws: seq<Wire>)
    ensures 0 <= MaxLocal(local, ws)
    ensures MaxLocal(local, ws) == 0 || exists w :: w in ws && w.gate in local && local[w.gate] == MaxLocal(local, ws)
    decreases |ws|
  {
    if ws != [] {
      MaxLocalReached(local, ws[..|ws| - 1]);
      assert ws[|ws| - 1] in ws;
    }
  }

  /** The local depth of a gate bounds the non-linear gates on every inner path from it ... */
  lemma {:induction false} InnerPathsAreBounded(x: Context, B: Block, p: seq<GateId>)
    requires B.GateBlock? && HeightOk(x, B) && IsInnerPath(x.c, B, p)
    ensures NonLinearOn(x.c, p) <= B.localDepths[p[0]] <= B.nonLinearHeight
    decreases |p|
  {
    hide MaxLocal, Reads;
    var g := p[0];
    MaxLocalReached(B.localDepths, x.c.gates[g].fanins);
    if |p| > 1 {
      var t := p[1..];
      assert Reads(x.c, p[0], p[0 + 1]);
      forall i | 0 <= i < |t| - 1
        ensures Reads(x.c, t[i], t[i + 1])
      {
        assert Reads(x.c, p[i + 1], p[i + 1 + 1]);
      }
      InnerPathsAreBounded(x, B, t);
      ReadBounds(x.c, B.localDepths, g, p[1]);
    } else {
      assert NonLinearOn(x.c, p[1..]) == 0;
    }
  }

  lemma ReadBounds(c: Circuit, local: map<GateId, int>, g: GateId, f: GateId)
    requires Reads(c, g, f) && f in local
    ensures local[f] <= MaxLocal(local, c.gates[g].fanins)
  {
    hide MaxLocal;
    var i: nat :| i < |c.gates[g].fanins| && c.gates[g].fanins[i].gate == f;
    MaxLocalBounds(local, c.gates[g].fanins, c.gates[g].fanins[i]);
  }

  /** ... and some inner path from it has as many. */
  lemma {:induction false} LocalDepthIsReached(x: Context, B: Block, g: GateId) returns (p: seq<GateId>)
    requires B.GateBlock? && HeightOk(x, B) && WellFormed(x.c, x.rank) && g in B.localDepths && g in x.c.gates
    ensures IsInnerPath(x.c, B, p) && p[0] == g && NonLinearOn(x.c, p) == B.localDepths[g]
    decreases x.rank(g)
  {
    hide MaxLocal, Reads, WellFormed;
    var ws := x.c.gates[g].fanins;
    MaxLocalReached(B.localDepths, ws);
    if MaxLocal(B.localDepths, ws) == 0 {
      p := [g];
      assert NonLinearOn(x.c, p[1..]) == 0;
    } else {
      var w :| w in ws && w.gate in B.localDepths && B.localDepths[w.gate] == MaxLocal(B.localDepths, ws);
      FaninDepth(x.c, x.rank, g, w);
      var t := LocalDepthIsReached(x, B, w.gate);
      p := [g] + t;
      assert p[1..] == t;
      ReadsIsFanin(x.c, g, w.gate);
      forall i | 0 <= i < |p| - 1
        ensures Reads(x.c, p[i], p[i + 1])
      {
        if i > 0 {
          assert Reads(x.c, t[i - 1], t[i - 1 + 1]);
        }
      }
    }
  }

  /** non_linear_height is the largest number of non-linear gates on a path inside the block. */
  lemma HeightIsPathMaximum(x: Context, G: Graph, W: Owners, b: BlockId)
    requires Built(x, G, W) && b in G.blocks && G.blocks[b].GateBlock? && G.blocks[b].localDepths != map[]
    ensures forall p | IsInnerPath(x.c, G.blocks[b], p) :: NonLinearOn(x.c, p) <= G.blocks[b].nonLinearHeight
    ensures exists p :: IsInnerPath(x.c, G.blocks[b], p) && NonLinearOn(x.c, p) == G.blocks[b].nonLinearHeight
  {
    hide Built, MaxLocal, Reads, WellFormed, NonLinearMembers;
    var B := G.blocks[b];
    BuiltIsWellFormed(x, G, W);
    BlockHeight(x, G, W, b);
    forall p | IsInnerPath(x.c, B, p)
      ensures NonLinearOn(x.c, p) <= B.nonLinearHeight
    {
      InnerPathsAreBounded(x, B, p);
    }
    var h := HighestMember(x, B);
    var p := LocalDepthIsReached(x, B, h);
  }

  lemma HighestMember(x: Context, B: Block) returns (h: GateId)
    requires B.GateBlock? && HeightOk(x, B) && B.localDepths != map[]
    ensures h in B.localDepths && h in x.c.gates && B.localDepths[h] == B.nonLinearHeight
  {
    hide MaxLocal, NonLinearMembers;
    h :| h in B.localDepths;
    if B.nonLinearHeight == 0 {
      MaxLocalReached(B.localDepths, x.c.gates[h].fanins);
    } else {
      h :| h in B.localDepths && B.localDepths[h] == B.nonLinearHeight;
    }
  }

  lemma BlockHeight(x: Context, G: Graph, W: Owners, b: BlockId)
    requires Built(x, G, W) && b in G.blocks && G.blocks[b].GateBlock?
    ensures HeightOk(x, G.blocks[b])
  {
    hide HeightOk, Prepared, IdsOk, KeysOk, CallBlocksOk, OwnersOk, MembersOk, WiringOk;
  }

  /** The non-linear gates are the ANDs, ORs and MULs. */
  lemma {:induction false} NonLinearCounts(c: Circuit, p: seq<GateId>)
    requires forall g | g in p :: g in c.gates
    ensures NonLinearOn(c, p)
            == |set i: nat | i < |p| && (c.gates[p[i]].op == AND || c.gates[p[i]].op == OR || c.gates[p[i]].op == MUL)|
    decreases |p|
  {
    var s := set i: nat | i < |p| && (c.gates[p[i]].op == AND || c.gates[p[i]].op == OR || c.gates[p[i]].op == MUL);
    if p != [] {
      var q := p[1..];
      NonLinearCounts(c, q);
      var t := set i: nat | i < |q| && (c.gates[q[i]].op == AND || c.gates[q[i]].op == OR || c.gates[q[i]].op == MUL);
      ShiftedCount(t, s, c.gates[p[0]].op == AND || c.gates[p[0]].op == OR || c.gates[p[0]].op == MUL);
    } else {
      assert s == {};
    }
  }
}
