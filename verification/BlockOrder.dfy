/** The block graph is acyclic: every edge goes up in one order on blocks. */
module BlockOrder {
  import opened GateGraph
  import opened GateDepth
  import opened DepthSearch
  import opened OutputDepths
  import opened BlockGraph

  /**
   The root first and the leaf last; in between by the depth of the closest inputs, at equal depth
   calls before gates, and gate blocks by shrinking sets of output depths.
   */
  ghost predicate Precedes(G: Graph, p: BlockId, b: BlockId)
    requires p in G.blocks && b in G.blocks
  {
    var P, B := G.blocks[p], G.blocks[b];
    if p == ROOT || b == ROOT then p == ROOT && b != ROOT
    else if p == LEAF || b == LEAF then b == LEAF && p != LEAF
    else if P.inputDepth != B.inputDepth then P.inputDepth < B.inputDepth
    else if P.CallBlock? then B.GateBlock?
    else B.GateBlock? && B.outputDepths < P.outputDepths
  }

  lemma PrecedesIsTransitive(G: Graph, a: BlockId, b: BlockId, c: BlockId)
    requires a in G.blocks && b in G.blocks && c in G.blocks && Precedes(G, a, b) && Precedes(G, b, c)
    ensures Precedes(G, a, c)
  {
  }

  lemma PrecedesIsIrreflexive(G: Graph, b: BlockId)
    requires b in G.blocks
    ensures !Precedes(G, b, b)
  {
  }

  lemma {:induction false} MaxInputDepthBounds(G: Graph, W: Owners, ws: seq<Wire>, w: Wire)
    requires (forall v | v in ws :: v.gate in W && W[v.gate] in G.blocks) && w in ws
    ensures G.blocks[W[w.gate]].inputDepth <= MaxInputDepth(G, W, ws)
    decreases |ws|
  {
    if w != ws[|ws| - 1] {
      MaxInputDepthBounds(G, W, ws[..|ws| - 1], w);
    }
  }

  lemma {:induction false} MaxInputDepthReached(G: Graph, W: Owners, ws: seq<Wire>) returns (w: Wire)
    requires forall v | v in ws :: v.gate in W && W[v.gate] in G.blocks
    requires 0 < MaxInputDepth(G, W, ws)
    ensures w in ws && G.blocks[W[w.gate]].inputDepth == MaxInputDepth(G, W, ws)
    decreases |ws|
  {
    w := ws[|ws| - 1];
    if G.blocks[W[w.gate]].inputDepth != MaxInputDepth(G, W, ws) {
      w := MaxInputDepthReached(G, W, ws[..|ws| - 1]);
    }
  }

  lemma FaninDepth(c: Circuit, rank: GateId -> nat, g: GateId, w: Wire)
    requires WellFormed(c, rank) && g in c.gates && w in c.gates[g].fanins
    ensures w.gate in c.gates && rank(w.gate) < rank(g) && Depth(c, rank, w.gate) <= Depth(c, rank, g)
    ensures c.gates[w.gate].op != OUTPUT
  {
    var i :| 0 <= i < |c.gates[g].fanins| && c.gates[g].fanins[i] == w;
    FaninIsNoArgument(c, rank, g, i);
    assert c.gates[g].op != INPUT;
    GateDependencies(c, rank, g);
    assert Dependencies(c, g)[i] == w.gate;
    MaxDepthBounds(c, rank, rank(g), Dependencies(c, g), w.gate);
  }

  /** The closest input of a block is no deeper than any of its gates. */
  lemma {:induction false} InputDepthAtMostDepth(x: Context, G: Graph, W: Owners, g: GateId)
    requires Built(x, G, W) && WellFormed(x.c, x.rank) && g in W && g in x.c.gates
    ensures W[g] in G.blocks && G.blocks[W[g]].inputDepth <= Depth(x.c, x.rank, g)
    decreases x.rank(g)
  {
    hide Prepared, KeysOk, CallBlocksOk, OwnersOk, MembersOk, WiringOk, HeightsOk, WellFormed, Depth;
    RightBlockOf(x, G, W, g);
    if IsCallResult(x.c, g) {
      CallDepthOfBlock(x, G, W, g);
    } else if IsOrdinary(x.c, g) && 0 < G.blocks[W[g]].inputDepth {
      var w := MaxInputDepthReached(G, W, x.c.gates[g].fanins);
      FaninDepth(x.c, x.rank, g, w);
      InputDepthAtMostDepth(x, G, W, w.gate);
    }
  }

  lemma RightBlockOf(x: Context, G: Graph, W: Owners, g: GateId)
    requires Built(x, G, W) && g in W
    ensures x.outs.Keys == x.c.gates.Keys && WellFormed(x.c, x.rank) && g in x.c.gates
    ensures RightBlock(x, G, W, W[g], g)
    ensures x.c.gates[g].op == INPUT ==> x.c.gates[g].fanins == []
  {
  }

  lemma CallDepthOfBlock(x: Context, G: Graph, W: Owners, r: GateId)
    requires Built(x, G, W) && WellFormed(x.c, x.rank) && r in W && r in x.c.gates && IsCallResult(x.c, r)
    ensures W[r] in G.blocks && G.blocks[W[r]].CallBlock? && 2 <= W[r]
    ensures G.blocks[W[r]].inputDepth == Depth(x.c, x.rank, r)
  {
    hide KeysOk, CallBlocksOk, MembersOk, WiringOk, HeightsOk, Depth, WellFormed, CallDepth;
    RightBlockOf(x, G, W, r);
    var k: nat :| IsResult(x.c, k, r) && IsBlockOfCall(x, G, W, W[r], k);
    DepthOfCallBlock(x, G, W, W[r], k, r);
  }

  lemma DepthOfCallBlock(x: Context, G: Graph, W: Owners, b: BlockId, k: nat, r: GateId)
    requires WellFormed(x.c, x.rank) && Correct(x.c, x.rank, x.depths)
    requires IsBlockOfCall(x, G, W, b, k) && IsResult(x.c, k, r)
    ensures r in x.c.gates && G.blocks[b].inputDepth == Depth(x.c, x.rank, r) == CallDepth(x.c, x.rank, k) + 1
  {
    hide Correct, Depth, WellFormed, CallDepth;
    var r' :| r' in x.c.calls[k].results && r' in x.depths && x.depths[r'] == G.blocks[b].inputDepth;
    assert IsResult(x.c, k, r');
    EntryOf(x.c, x.rank, x.depths, r');
    DepthOfResult(x.c, x.rank, k, r');
    DepthOfResult(x.c, x.rank, k, r);
    ExactDepth(x.c, x.rank, r', x.depths[r']);
    ExactDepth(x.c, x.rank, r', CallDepth(x.c, x.rank, k) + 1);
    ExactDepth(x.c, x.rank, r, CallDepth(x.c, x.rank, k) + 1);
  }

  /** An edge is there because some gate of the block, or its call, reads a gate of another block. */
  lemma EdgeHasInput(x: Context, G: Graph, W: Owners, b: BlockId, p: BlockId) returns (f: GateId)
    requires Built(x, G, W) && b in G.blocks && p in G.blocks[b].fanins
    ensures f in W && W[f] == p && IsBlockInput(x, G.blocks[b], f)
  {
    hide Prepared, KeysOk, CallBlocksOk, OwnersOk, MembersOk, HeightsOk, IsBlockInput;
    assert InputsOk(x, G.blocks[b], W) && FaninsOk(G.blocks[b]);
    f :| f in G.blocks[b].inputs && G.blocks[b].inputs[f] == p;
  }

  /** A gate that is read is no OUTPUT, so it is not in the leaf. */
  lemma ReadGateOwner(x: Context, G: Graph, W: Owners, g: GateId, f: GateId)
    requires Built(x, G, W) && Reads(x.c, g, f) && f in W
    ensures f in x.c.gates && x.c.gates[f].op != OUTPUT && W[f] in G.blocks && W[f] != LEAF
  {
    hide KeysOk, CallBlocksOk, MembersOk, WiringOk, HeightsOk, OwnersOk, WellFormed, IsBlockOfCall;
    RightBlockOf(x, G, W, f);
    var i: nat :| i < |x.c.gates[g].fanins| && x.c.gates[g].fanins[i].gate == f;
    FaninIsNoArgument(x.c, x.rank, g, i);
    if IsCallResult(x.c, f) {
      CallDepthOfBlock(x, G, W, f);
    }
  }

  lemma EdgeIntoGateBlock(x: Context, G: Graph, W: Owners, b: BlockId, p: BlockId, g: GateId, f: GateId)
    requires Built(x, G, W) && b in G.blocks && G.blocks[b].GateBlock?
    requires f in W && W[f] == p && g in G.blocks[b].localDepths && f !in G.blocks[b].localDepths && Reads(x.c, g, f)
    ensures p in G.blocks && Precedes(G, p, b)
  {
    hide CallBlocksOk, MembersOk, WiringOk, HeightsOk, OwnersOk, Prepared, WellFormed, KeysOk, IdsOk, MaxInputDepth, IsBlockOfCall;
    ReadGateOwner(x, G, W, g, f);
    MemberOwners(x, G, W, b, g, f);
    RightBlockOf(x, G, W, g);
    RightBlockOf(x, G, W, f);
    var i: nat :| i < |x.c.gates[g].fanins| && x.c.gates[g].fanins[i].gate == f;
    var w := x.c.gates[g].fanins[i];
    assert w in x.c.gates[g].fanins;
    if b != LEAF && p != ROOT {
      assert IsOrdinary(x.c, g);
      MaxInputDepthBounds(G, W, x.c.gates[g].fanins, w);
      if G.blocks[p].GateBlock? {
        OutsShrinkBetween(x, G, W, b, p, g, f, i);
      }
    }
  }

  lemma MemberOwners(x: Context, G: Graph, W: Owners, b: BlockId, g: GateId, f: GateId)
    requires Built(x, G, W) && b in G.blocks && G.blocks[b].GateBlock?
    requires g in G.blocks[b].localDepths && f !in G.blocks[b].localDepths && f in W && Reads(x.c, g, f)
    ensures g in W && W[g] == b && W[f] != b && b != ROOT && !IsCallResult(x.c, g)
  {
    hide KeysOk, CallBlocksOk, WiringOk, HeightsOk, OwnersOk, WellFormed, IsBlockOfCall;
    RightBlockOf(x, G, W, g);
    if IsCallResult(x.c, g) {
      CallDepthOfBlock(x, G, W, g);
    }
  }

  lemma OutsShrinkBetween(x: Context, G: Graph, W: Owners, b: BlockId, p: BlockId, g: GateId, f: GateId, i: nat)
    requires Built(x, G, W) && x.outs.Keys == x.c.gates.Keys && b in G.blocks && p in G.blocks
    requires G.blocks[b].GateBlock? && G.blocks[p].GateBlock? && 2 <= b && p != ROOT && p != LEAF && p != b
    requires g in W && W[g] == b && f in W && W[f] == p
    requires g in x.c.gates && f in x.c.gates && i < |x.c.gates[g].fanins| && x.c.gates[g].fanins[i].gate == f
    requires RightBlock(x, G, W, b, g) && RightBlock(x, G, W, p, f) && !IsCallResult(x.c, g)
    requires x.c.gates[g].op != OUTPUT && x.c.gates[f].op != OUTPUT
    ensures G.blocks[b].inputDepth == G.blocks[p].inputDepth ==> G.blocks[b].outputDepths < G.blocks[p].outputDepths
  {
    hide CallBlocksOk, MembersOk, WiringOk, HeightsOk, OwnersOk, WellFormed, MaxInputDepth;
    assert OutsShrinkAt(x, g, i);
    if IsCallResult(x.c, f) {
      CallDepthOfBlock(x, G, W, f);
    }
    assert G.blocks[b].outputDepths == x.outs[g] && G.blocks[p].outputDepths == x.outs[f];
    assert HasKey(G, b) && HasKey(G, p);
    if x.outs[f] <= x.outs[g] {
      assert x.outs[f] == x.outs[g];
    }
  }

  lemma EdgeIntoCallBlock(x: Context, G: Graph, W: Owners, b: BlockId, p: BlockId, f: GateId)
    requires Built(x, G, W) && b in G.blocks && G.blocks[b].CallBlock?
    requires f in W && W[f] == p && IsBlockInput(x, G.blocks[b], f)
    ensures p in G.blocks && Precedes(G, p, b)
  {
    hide MembersOk, WiringOk, HeightsOk, OwnersOk, KeysOk, WellFormed, Correct, Depth, CallDepth;
    var l: nat :| l < |x.c.calls| && x.c.calls[l].id == G.blocks[b].callId && Drives(x.c, l, f);
    var k: nat :| IsBlockOfCall(x, G, W, b, k);
    assert l == k by {
      CallIdsDistinct(x.c, x.rank, k, l);
    }
    var a :| IsArgument(x.c, k, a) && Reads(x.c, a, f);
    ReadGateOwner(x, G, W, a, f);
    DepthBelowCall(x, k, a, f);
    InputDepthAtMostDepth(x, G, W, f);
    var r :| r in x.c.calls[k].results && r in x.depths && x.depths[r] == G.blocks[b].inputDepth;
    assert IsResult(x.c, k, r);
    DepthOfCallBlock(x, G, W, b, k, r);
  }

  lemma CallIdsDistinct(c: Circuit, rank: GateId -> nat, k: nat, l: nat)
    requires WellFormed(c, rank) && k < |c.calls| && l < |c.calls| && c.calls[k].id == c.calls[l].id
    ensures k == l
  {
  }

  lemma DepthBelowCall(x: Context, k: nat, a: GateId, f: GateId)
    requires WellFormed(x.c, x.rank) && k < |x.c.calls| && IsArgument(x.c, k, a) && Reads(x.c, a, f) && f in x.c.gates
    ensures Depth(x.c, x.rank, f) <= CallDepth(x.c, x.rank, k)
  {
    hide WellFormed, Depth, CallDepth;
    DepthOfArgument(x.c, x.rank, k, a);
    var i: nat :| i < |x.c.gates[a].fanins| && x.c.gates[a].fanins[i].gate == f;
    FaninDepth(x.c, x.rank, a, x.c.gates[a].fanins[i]);
  }

  /** Every edge of the block graph goes up in the order. */
  lemma EdgesRise(x: Context, G: Graph, W: Owners, b: BlockId, p: BlockId)
    requires Built(x, G, W) && b in G.blocks && p in G.blocks[b].fanins
    ensures p in G.blocks && Precedes(G, p, b)
  {
    hide Prepared, KeysOk, CallBlocksOk, OwnersOk, MembersOk, WiringOk, HeightsOk, Reads;
    var f := EdgeHasInput(x, G, W, b, p);
    if G.blocks[b].GateBlock? {
      var g :| g in G.blocks[b].localDepths && Reads(x.c, g, f);
      EdgeIntoGateBlock(x, G, W, b, p, g, f);
    } else {
      EdgeIntoCallBlock(x, G, W, b, p, f);
    }
  }

  ghost predicate IsEdge(G: Graph, p: BlockId, b: BlockId) {
    p in G.blocks && b in G.blocks && p in G.blocks[b].fanins
  }

  ghost predicate IsBlockPath(G: Graph, path: seq<BlockId>) {
    && path != [] && path[0] in G.blocks
    && forall i | 0 <= i < |path| - 1 :: IsEdge(G, path[i], path[i + 1])
  }

  lemma {:induction false} PathsRise(x: Context, G: Graph, W: Owners, path: seq<BlockId>)
    requires Built(x, G, W) && IsBlockPath(G, path) && |path| > 1
    ensures path[|path| - 1] in G.blocks && Precedes(G, path[0], path[|path| - 1])
  {
    hide Built, Precedes;
    var n := |path| - 1;
    assert IsEdge(G, path[n - 1], path[n - 1 + 1]);
    EdgesRise(x, G, W, path[n], path[n - 1]);
    if n > 1 {
      var front := path[..n];
      forall i | 0 <= i < |front| - 1
        ensures IsEdge(G, front[i], front[i + 1])
      {
        assert IsEdge(G, path[i], path[i + 1]);
      }
      PathsRise(x, G, W, front);
      PrecedesIsTransitive(G, path[0], path[n - 1], path[n]);
    }
  }

  /** No path through the block graph comes back to where it started. */
  lemma BlockGraphIsAcyclic(x: Context, G: Graph, W: Owners, path: seq<BlockId>)
    requires Built(x, G, W) && IsBlockPath(G, path) && |path| > 1
    ensures path[0] != path[|path| - 1]
  {
    PathsRise(x, G, W, path);
    PrecedesIsIrreflexive(G, path[0]);
  }
}
