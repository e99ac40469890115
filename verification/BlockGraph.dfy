/**
 The parallel execution graph as a value: blocks of gates and calls, the block each gate is in, and
 what every step of the construction keeps.
 */
module BlockGraph {
  import opened Basics
  import opened GateGraph
  import opened GateDepth
  import opened DepthSearch
  import opened OutputDepths

  type BlockId = nat

  datatype Block =
    | GateBlock(inputDepth: int, fanins: set<BlockId>, inputs: map<GateId, BlockId>, outputDepths: set<int>,
                localDepths: map<GateId, int>, nonLinearGates: int, nonLinearHeight: int)
    | CallBlock(inputDepth: int, fanins: set<BlockId>, inputs: map<GateId, BlockId>, name: string, callId: int)

  /** gate_block_keyt */
  datatype Key = Key(inputDepth: int, outputDepths: set<int>)

  datatype Graph = Graph(idCounter: nat, gateBlocks: map<Key, BlockId>, callBlocks: map<int, BlockId>,
                         blocks: map<BlockId, Block>)

  type Owners = map<GateId, BlockId>

  const ROOT: BlockId := 0
  const LEAF: BlockId := 1

  function EmptyBlock(inputDepth: int, outputDepths: set<int>): (b: Block) {
    GateBlock(inputDepth, {}, map[], outputDepths, map[], 0, 0)
  }

  const EMPTY: Graph :=
    Graph(2, map[], map[], map[ROOT := EmptyBlock(0, {MAX_DEPTH}), LEAF := EmptyBlock(0, {MAX_DEPTH})])

  /** What the earlier passes computed for the circuit. */
  datatype Context = Context(c: Circuit, rank: GateId -> nat, depths: Depths, outs: OutputSets)

  ghost predicate Prepared(x: Context) {
    && WellFormed(x.c, x.rank) && Correct(x.c, x.rank, x.depths)
    && x.outs.Keys == x.c.gates.Keys
    && forall g, i: nat | g in x.c.gates && i < |x.c.gates[g].fanins| :: OutsShrinkAt(x, g, i)
  }

  ghost predicate OutsShrinkAt(x: Context, g: GateId, i: nat)
    requires x.outs.Keys == x.c.gates.Keys && g in x.c.gates && i < |x.c.gates[g].fanins|
  {
    var f := x.c.gates[g].fanins[i].gate;
    f in x.c.gates && x.outs[g] <= x.outs[f]
  }

  ghost predicate Reads(c: Circuit, g: GateId, f: GateId) {
    g in c.gates && exists i: nat :: i < |c.gates[g].fanins| && c.gates[g].fanins[i].gate == f
  }

  /** The gate whose value a call's argument passes on. */
  ghost predicate Drives(c: Circuit, k: nat, f: GateId) {
    exists a :: IsArgument(c, k, a) && Reads(c, a, f)
  }

  predicate IsOrdinary(c: Circuit, g: GateId)
    requires g in c.gates
  {
    c.gates[g].op != INPUT && c.gates[g].op != OUTPUT && c.gates[g].fanins != []
  }

  // ----- the invariants -----

  ghost predicate IdsOk(G: Graph) {
    && 2 <= G.idCounter && (forall b: nat :: b in G.blocks <==> b < G.idCounter)
    && forall b | b == ROOT || b == LEAF ::
         G.blocks[b].GateBlock? && G.blocks[b].inputDepth == 0 && G.blocks[b].outputDepths == {MAX_DEPTH}
  }

  ghost predicate KeyOk(G: Graph, k: Key)
    requires k in G.gateBlocks
  {
    var b := G.gateBlocks[k];
    && 2 <= b && b in G.blocks && G.blocks[b].GateBlock?
    && G.blocks[b].inputDepth == k.inputDepth && G.blocks[b].outputDepths == k.outputDepths
  }

  ghost predicate HasKey(G: Graph, b: BlockId)
    requires b in G.blocks && G.blocks[b].GateBlock?
  {
    var k := Key(G.blocks[b].inputDepth, G.blocks[b].outputDepths);
    k in G.gateBlocks && G.gateBlocks[k] == b
  }

  ghost predicate KeysOk(G: Graph) {
    && (forall k | k in G.gateBlocks :: KeyOk(G, k))
    && forall b | b in G.blocks && 2 <= b && G.blocks[b].GateBlock? :: HasKey(G, b)
  }

  /** A call block belongs to one call, whose results it owns. */
  ghost predicate IsBlockOfCall(x: Context, G: Graph, W: Owners, b: BlockId, k: nat) {
    && k < |x.c.calls| && b in G.blocks && G.blocks[b].CallBlock? && 2 <= b
    && G.blocks[b].callId == x.c.calls[k].id && G.blocks[b].name == x.c.calls[k].name
    && (forall r | r in x.c.calls[k].results :: r in W && W[r] == b)
    && exists r :: r in x.c.calls[k].results && r in x.depths && x.depths[r] == G.blocks[b].inputDepth
  }

  ghost predicate CallBlocksOk(x: Context, G: Graph, W: Owners) {
    && (forall id | id in G.callBlocks ::
          G.callBlocks[id] in G.blocks && G.blocks[G.callBlocks[id]].CallBlock?
          && G.blocks[G.callBlocks[id]].callId == id)
    && (forall b | b in G.blocks && G.blocks[b].CallBlock? ::
          && G.blocks[b].callId in G.callBlocks && G.callBlocks[G.blocks[b].callId] == b
          && exists k: nat :: IsBlockOfCall(x, G, W, b, k))
  }

  ghost function MaxInputDepth(G: Graph, W: Owners, ws: seq<Wire>): (d: int)
    requires forall w | w in ws :: w.gate in W && W[w.gate] in G.blocks
  {
    if ws == [] then 0
    else Max(MaxInputDepth(G, W, ws[..|ws| - 1]), G.blocks[W[ws[|ws| - 1].gate]].inputDepth)
  }

  ghost predicate FaninsOwned(x: Context, G: Graph, W: Owners, g: GateId) {
    g in x.c.gates && forall w | w in x.c.gates[g].fanins :: w.gate in W && W[w.gate] in G.blocks
  }

  /** b is the block that gate g belongs in. */
  ghost predicate RightBlock(x: Context, G: Graph, W: Owners, b: BlockId, g: GateId)
    requires x.outs.Keys == x.c.gates.Keys
  {
    && FaninsOwned(x, G, W, g) && b in G.blocks
    && if IsCallResult(x.c, g) then
         exists k: nat :: IsResult(x.c, k, g) && IsBlockOfCall(x, G, W, b, k)
       else if x.c.gates[g].op == OUTPUT then
         b == LEAF && !IsCallArgument(x.c, g)
       else if x.c.gates[g].fanins == [] then
         b == ROOT
       else
         && 2 <= b && G.blocks[b].GateBlock? && G.blocks[b].outputDepths == x.outs[g]
         && G.blocks[b].inputDepth == MaxInputDepth(G, W, x.c.gates[g].fanins)
  }

  ghost predicate OwnersOk(x: Context, G: Graph, W: Owners)
    requires x.outs.Keys == x.c.gates.Keys
  {
    forall g | g in W :: RightBlock(x, G, W, W[g], g)
  }

  ghost predicate MembersOk(G: Graph, W: Owners) {
    forall b, g | b in G.blocks && G.blocks[b].GateBlock? :: g in G.blocks[b].localDepths <==> g in W && W[g] == b
  }

  /** f feeds the block from outside. */
  ghost predicate IsBlockInput(x: Context, B: Block, f: GateId) {
    match B
    case GateBlock(_, _, _, _, local, _, _) => f !in local && exists g :: g in local && Reads(x.c, g, f)
    case CallBlock(_, _, _, _, id) => exists k: nat :: k < |x.c.calls| && x.c.calls[k].id == id && Drives(x.c, k, f)
  }

  /** The recorded inputs are exactly the outside gates feeding the block, with their owners ... */
  ghost predicate InputsOk(x: Context, B: Block, W: Owners) {
    && (forall f :: f in B.inputs <==> IsBlockInput(x, B, f))
    && (forall f | f in B.inputs :: f in W && B.inputs[f] == W[f])
  }

  /** ... and the owners of the inputs are exactly the fanin blocks. */
  ghost predicate FaninsOk(B: Block) {
    forall p :: p in B.fanins <==> exists f :: f in B.inputs && B.inputs[f] == p
  }

  ghost predicate WiringOk(x: Context, G: Graph, W: Owners) {
    forall b | b in G.blocks :: InputsOk(x, G.blocks[b], W) && FaninsOk(G.blocks[b])
  }

  /** Non-linear gates on the way to a gate, counting only gates of the same block. */
  function MaxLocal(local: map<GateId, int>, ws: seq<Wire>): (d: int) {
    if ws == [] then 0
    else
      var w := ws[|ws| - 1];
      Max(MaxLocal(local, ws[..|ws| - 1]), if w.gate in local then local[w.gate] else 0)
  }

  ghost function NonLinearMembers(c: Circuit, local: map<GateId, int>): (s: set<GateId>) {
    set g | g in local && g in c.gates && IsNonLinear(c.gates[g].op)
  }

  ghost predicate HeightOk(x: Context, B: Block)
    requires B.GateBlock?
  {
    && (forall g | g in B.localDepths :: g in x.c.gates
          && B.localDepths[g] == NonLinear(x.c, g) + MaxLocal(B.localDepths, x.c.gates[g].fanins)
          && B.localDepths[g] <= B.nonLinearHeight)
    && (B.nonLinearHeight == 0 || exists g :: g in B.localDepths && B.localDepths[g] == B.nonLinearHeight)
    && B.nonLinearGates == |NonLinearMembers(x.c, B.localDepths)|
  }

  ghost predicate HeightsOk(x: Context, G: Graph) {
    forall b | b in G.blocks && G.blocks[b].GateBlock? :: HeightOk(x, G.blocks[b])
  }

  ghost predicate Built(x: Context, G: Graph, W: Owners) {
    && Prepared(x) && IdsOk(G) && KeysOk(G) && CallBlocksOk(x, G, W) && OwnersOk(x, G, W)
    && MembersOk(G, W) && WiringOk(x, G, W) && HeightsOk(x, G)
  }

  // ----- one step keeps what earlier steps established -----

  ghost predicate SameBlockHead(B: Block, B': Block) {
    && B.GateBlock? == B'.GateBlock? && B.inputDepth == B'.inputDepth
    && (B.GateBlock? ==> B.outputDepths == B'.outputDepths)
    && (B.CallBlock? ==> B == B')
  }

  ghost predicate Extends(G: Graph, W: Owners, G': Graph, W': Owners) {
    && (forall b | b in G.blocks :: b in G'.blocks && SameBlockHead(G.blocks[b], G'.blocks[b]))
    && (forall g | g in W :: g in W' && W'[g] == W[g])
  }

  lemma {:induction false} MaxInputDepthStays(G: Graph, W: Owners, G': Graph, W': Owners, ws: seq<Wire>)
    requires Extends(G, W, G', W') && forall w | w in ws :: w.gate in W && W[w.gate] in G.blocks
    ensures forall w | w in ws :: w.gate in W' && W'[w.gate] in G'.blocks
    ensures MaxInputDepth(G, W, ws) == MaxInputDepth(G', W', ws)
    decreases |ws|
  {
    if ws != [] {
      MaxInputDepthStays(G, W, G', W', ws[..|ws| - 1]);
    }
  }

  lemma BlockOfCallStays(x: Context, G: Graph, W: Owners, G': Graph, W': Owners, b: BlockId, k: nat)
    requires Extends(G, W, G', W') && IsBlockOfCall(x, G, W, b, k)
    ensures IsBlockOfCall(x, G', W', b, k)
  {
  }

  lemma RightBlockStays(x: Context, G: Graph, W: Owners, G': Graph, W': Owners, b: BlockId, g: GateId)
    requires x.outs.Keys == x.c.gates.Keys && Extends(G, W, G', W') && RightBlock(x, G, W, b, g)
    ensures RightBlock(x, G', W', b, g)
  {
    hide IsBlockOfCall;
    if IsCallResult(x.c, g) {
      var k: nat :| IsResult(x.c, k, g) && IsBlockOfCall(x, G, W, b, k);
      BlockOfCallStays(x, G, W, G', W', b, k);
    }
    MaxInputDepthStays(G, W, G', W', x.c.gates[g].fanins);
  }
}
