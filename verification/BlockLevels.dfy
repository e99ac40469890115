/** compute_block_depth and group_blocks_by_depth: the level of a block is its longest path from below. */
module BlockLevels {
  import opened Basics
  import opened GateGraph
  import opened BlockGraph
  import opened BlockOrder

  // ----- why the recursion ends -----

  ghost function Below(G: Graph, b: BlockId): (s: set<BlockId>)
    requires b in G.blocks
  {
    set p | p in G.blocks && Precedes(G, p, b)
  }

  lemma EdgeShrinksBelow(x: Context, G: Graph, W: Owners, p: BlockId, b: BlockId)
    requires Built(x, G, W) && b in G.blocks && p in G.blocks[b].fanins
    ensures p in G.blocks && Below(G, p) < Below(G, b)
  {
    hide Built, Precedes;
    EdgesRise(x, G, W, b, p);
    PrecedesIsIrreflexive(G, p);
    forall q | q in Below(G, p)
      ensures q in Below(G, b)
    {
      PrecedesIsTransitive(G, q, p, b);
    }
    assert p in Below(G, b) && p !in Below(G, p);
  }

  // ----- levels -----

  ghost predicate EndsAt(G: Graph, path: seq<BlockId>, b: BlockId) {
    IsBlockPath(G, path) && path[|path| - 1] == b
  }

  ghost predicate HasPathOf(G: Graph, b: BlockId, edges: nat) {
    exists path :: EndsAt(G, path, b) && |path| == edges + 1
  }

  /** d is the number of edges on a longest path to b. */
  ghost predicate IsLevel(G: Graph, b: BlockId, d: int) {
    && 0 <= d && HasPathOf(G, b, d)
    && forall path | EndsAt(G, path, b) :: |path| <= d + 1
  }

  lemma LevelIsUnique(G: Graph, b: BlockId, d: int, e: int)
    requires IsLevel(G, b, d) && IsLevel(G, b, e)
    ensures d == e
  {
    var p :| EndsAt(G, p, b) && |p| == d + 1;
    var q :| EndsAt(G, q, b) && |q| == e + 1;
  }

  lemma PathExtends(G: Graph, path: seq<BlockId>, p: BlockId, b: BlockId)
    requires EndsAt(G, path, p) && IsEdge(G, p, b)
    ensures EndsAt(G, path + [b], b)
  {
    var longer := path + [b];
    forall i | 0 <= i < |longer| - 1
      ensures IsEdge(G, longer[i], longer[i + 1])
    {
      if i < |path| - 1 {
        assert IsEdge(G, path[i], path[i + 1]);
      }
    }
  }

  lemma PathShortens(G: Graph, path: seq<BlockId>, b: BlockId)
    requires EndsAt(G, path, b) && |path| > 1
    ensures var p := path[|path| - 2]; IsEdge(G, p, b) && EndsAt(G, path[..|path| - 1], p)
  {
    var n := |path| - 1;
    assert IsEdge(G, path[n - 1], path[n - 1 + 1]);
    var front := path[..n];
    forall i | 0 <= i < |front| - 1
      ensures IsEdge(G, front[i], front[i + 1])
    {
      assert IsEdge(G, path[i], path[i + 1]);
    }
  }

  /** Edges go from a level to a higher one. */
  lemma EdgesGoUp(G: Graph, p: BlockId, b: BlockId, d: int, e: int)
    requires IsEdge(G, p, b) && IsLevel(G, p, d) && IsLevel(G, b, e)
    ensures d < e
  {
    var path :| EndsAt(G, path, p) && |path| == d + 1;
    PathExtends(G, path, p, b);
  }

  /** deepest is the largest level among the blocks, -1 if there is none. */
  ghost predicate IsDeepest(G: Graph, s: set<BlockId>, deepest: int) {
    && -1 <= deepest && (deepest == -1 ==> s == {})
    && (deepest != -1 ==> exists p :: p in s && IsLevel(G, p, deepest))
    && forall p | p in s :: exists d :: d <= deepest && IsLevel(G, p, d)
  }

  lemma LevelAboveFanins(G: Graph, b: BlockId, deepest: int)
    requires b in G.blocks && G.blocks[b].fanins <= G.blocks.Keys && IsDeepest(G, G.blocks[b].fanins, deepest)
    ensures IsLevel(G, b, deepest + 1)
  {
    hide IsLevel;
    assert HasPathOf(G, b, deepest + 1) by {
      if deepest == -1 {
        assert EndsAt(G, [b], b);
      } else {
        var p :| p in G.blocks[b].fanins && IsLevel(G, p, deepest);
        LevelHasPath(G, p, deepest);
        var path :| EndsAt(G, path, p) && |path| == deepest + 1;
        PathExtends(G, path, p, b);
      }
    }
    forall path | EndsAt(G, path, b)
      ensures |path| <= deepest + 2
    {
      if |path| > 1 {
        PathShortens(G, path, b);
        var p := path[|path| - 2];
        var d :| d <= deepest && IsLevel(G, p, d);
        LevelBounds(G, p, d, path[..|path| - 1]);
      }
    }
    LevelFromPaths(G, b, deepest + 1);
  }

  lemma LevelHasPath(G: Graph, b: BlockId, d: int)
    requires IsLevel(G, b, d)
    ensures 0 <= d && HasPathOf(G, b, d)
  {
  }

  lemma LevelBounds(G: Graph, b: BlockId, d: int, path: seq<BlockId>)
    requires IsLevel(G, b, d) && EndsAt(G, path, b)
    ensures |path| <= d + 1
  {
  }

  lemma LevelFromPaths(G: Graph, b: BlockId, d: nat)
    requires HasPathOf(G, b, d) && forall path | EndsAt(G, path, b) :: |path| <= d + 1
    ensures IsLevel(G, b, d)
  {
  }

  lemma DeepestStep(G: Graph, s: set<BlockId>, deepest: int, p: BlockId, d: int)
    requires IsDeepest(G, s, deepest) && IsLevel(G, p, d)
    ensures IsDeepest(G, s + {p}, Max(deepest, d))
  {
    LevelHasPath(G, p, d);
    hide IsLevel;
  }

  ghost predicate LevelsCorrect(G: Graph, levels: map<BlockId, int>) {
    forall b | b in levels :: b in G.blocks && IsLevel(G, b, levels[b])
  }

  class BlockDepths {
    const graph: Graph
    ghost const x: Context
    ghost const owners: Owners
    var blockDepths: map<BlockId, int>

    constructor (graph: Graph, ghost x: Context, ghost owners: Owners)
      requires Built(x, graph, owners)
      ensures Valid() && this.graph == graph && this.x == x && this.owners == owners
    {
      hide Built;
      this.graph := graph;
      this.x := x;
      this.owners := owners;
      blockDepths := map[];
    }

    ghost predicate Valid()
      reads this
    {
      Built(x, graph, owners) && LevelsCorrect(graph, blockDepths)
    }

    /** compute_block_depth */
    method ComputeBlockDepth(b: BlockId) returns (d: int)
      requires Valid() && b in graph.blocks
      modifies this`blockDepths
      ensures Valid() && IsLevel(graph, b, d)
      decreases Below(graph, b)
    {
      hide Built, IsLevel, Below, IsDeepest;
      if b in blockDepths {
        return blockDepths[b];
      }
      d := -1;
      var todo := graph.blocks[b].fanins;
      ghost var done: set<BlockId> := {};
      NoneDeepest(graph);
      while todo != {}
        invariant Valid() && todo + done == graph.blocks[b].fanins && IsDeepest(graph, done, d)
        decreases todo
      {
        var p :| p in todo;
        EdgeShrinksBelow(x, graph, owners, p, b);
        var faninDepth := ComputeBlockDepth(p);
        DeepestStep(graph, done, d, p, faninDepth);
        d := Max(d, faninDepth);
        todo := todo - {p};
        done := done + {p};
      }
      FaninsAreBlocks(x, graph, owners, b);
      LevelAboveFanins(graph, b, d);
      d := d + 1;
      blockDepths := blockDepths[b := d];
    }

    /** push_back at the block's level, after growing the list of levels where needed */
    method AddToGroup(groups: seq<seq<BlockId>>, b: BlockId, ghost placed: set<BlockId>)
      returns (groups': seq<seq<BlockId>>)
      requires Valid() && b in graph.blocks && b !in placed && Grouped(graph, groups, placed)
      modifies this`blockDepths
      ensures Valid() && Grouped(graph, groups', placed + {b})
    {
      hide Built, IsLevel;
      var d := ComputeBlockDepth(b);
      LevelHasPath(graph, b, d);
      groups' := groups;
      if |groups'| <= d {
        groups' := groups' + seq(d + 1 - |groups'|, _ => []);
      }
      Regrouped(graph, groups, groups', placed);
      GroupedStep(graph, groups', placed, b, d);
      groups' := groups'[d := groups'[d] + [b]];
    }

    method AddAllToGroups(groups: seq<seq<BlockId>>, blocks: set<BlockId>, ghost placed: set<BlockId>)
      returns (groups': seq<seq<BlockId>>)
      requires Valid() && blocks <= graph.blocks.Keys && blocks !! placed && Grouped(graph, groups, placed)
      modifies this`blockDepths
      ensures Valid() && Grouped(graph, groups', placed + blocks)
    {
      hide Built, Grouped, LevelsCorrect;
      groups' := groups;
      var todo := blocks;
      ghost var done: set<BlockId> := {};
      assert placed + done == placed;
      while todo != {}
        invariant Valid() && todo + done == blocks && todo !! done && Grouped(graph, groups', placed + done)
        decreases todo
      {
        var b :| b in todo;
        groups' := AddToGroup(groups', b, placed + done);
        assert placed + done + {b} == placed + (done + {b});
        todo := todo - {b};
        done := done + {b};
      }
      assert done == blocks;
    }

    /** group_blocks_by_depth */
    method GroupBlocksByDepth() returns (groups: seq<seq<BlockId>>)
      requires Valid()
      modifies this`blockDepths
      ensures Valid() && Grouped(graph, groups, graph.blocks.Keys)
    {
      hide Built, Grouped, LevelsCorrect;
      ThreeKinds(x, graph, owners);
      NothingGrouped(graph);
      groups := AddToGroup([], ROOT, {});
      groups := AddToGroup(groups, LEAF, {} + {ROOT});
      groups := AddAllToGroups(groups, graph.gateBlocks.Values, {} + {ROOT} + {LEAF});
      groups := AddAllToGroups(groups, CallBlockIds(graph), {} + {ROOT} + {LEAF} + graph.gateBlocks.Values);
      assert {} + {ROOT} + {LEAF} + graph.gateBlocks.Values + CallBlockIds(graph) == graph.blocks.Keys;
    }
  }

  lemma NoneDeepest(G: Graph)
    ensures IsDeepest(G, {}, -1)
  {
  }

  lemma FaninsAreBlocks(x: Context, G: Graph, W: Owners, b: BlockId)
    requires Built(x, G, W) && b in G.blocks
    ensures G.blocks[b].fanins <= G.blocks.Keys
  {
    hide Built, Precedes;
    forall p | p in G.blocks[b].fanins
      ensures p in G.blocks
    {
      EdgesRise(x, G, W, b, p);
    }
  }

  /** The placed blocks stand in the list of their level, each once, and no others do. */
  ghost predicate Grouped(G: Graph, groups: seq<seq<BlockId>>, placed: set<BlockId>) {
    && (forall d: nat, i: nat | d < |groups| && i < |groups[d]| :: groups[d][i] in placed && IsLevel(G, groups[d][i], d))
    && (forall b | b in placed :: exists d: nat, i: nat :: d < |groups| && i < |groups[d]| && groups[d][i] == b)
    && (forall d: nat | d < |groups| :: NoDuplicates(groups[d]))
  }

  /** No block stands in two places. */
  lemma GroupedOnce(G: Graph, groups: seq<seq<BlockId>>, placed: set<BlockId>, d: nat, i: nat, e: nat, j: nat)
    requires Grouped(G, groups, placed) && d < |groups| && i < |groups[d]| && e < |groups| && j < |groups[e]|
    requires groups[d][i] == groups[e][j]
    ensures d == e && i == j
  {
    hide IsLevel;
    LevelIsUnique(G, groups[d][i], d, e);
  }

  lemma NothingGrouped(G: Graph)
    ensures Grouped(G, [], {})
  {
  }

  lemma Regrouped(G: Graph, groups: seq<seq<BlockId>>, groups': seq<seq<BlockId>>, placed: set<BlockId>)
    requires Grouped(G, groups, placed) && groups <= groups'
    requires forall d | |groups| <= d < |groups'| :: groups'[d] == []
    ensures Grouped(G, groups', placed)
  {
    hide IsLevel;
    forall d: nat, i: nat | d < |groups'| && i < |groups'[d]|
      ensures groups'[d][i] in placed && IsLevel(G, groups'[d][i], d)
    {
      assert d < |groups| && groups[d] == groups'[d];
    }
    forall b | b in placed
      ensures exists d: nat, i: nat :: d < |groups'| && i < |groups'[d]| && groups'[d][i] == b
    {
      var d: nat, i: nat :| d < |groups| && i < |groups[d]| && groups[d][i] == b;
      assert groups'[d][i] == b;
    }
  }

  lemma GroupedStep(G: Graph, groups: seq<seq<BlockId>>, placed: set<BlockId>, b: BlockId, d: nat)
    requires Grouped(G, groups, placed) && b !in placed && IsLevel(G, b, d) && d < |groups|
    ensures Grouped(G, groups[d := groups[d] + [b]], placed + {b})
  {
    hide IsLevel;
    var groups' := groups[d := groups[d] + [b]];
    forall h | h in placed + {b}
      ensures exists e: nat, i: nat :: e < |groups'| && i < |groups'[e]| && groups'[e][i] == h
    {
      if h == b {
        assert groups'[d][|groups[d]|] == b;
      } else {
        var e: nat, i: nat :| e < |groups| && i < |groups[e]| && groups[e][i] == h;
        assert groups'[e][i] == h;
      }
    }
  }

  function CallBlockIds(G: Graph): (s: set<BlockId>) { set id | id in G.callBlocks :: G.callBlocks[id] }

  /** Every block is the root, the leaf, a gate block or a call block, and only one of these. */
  lemma ThreeKinds(x: Context, G: Graph, W: Owners)
    requires Built(x, G, W)
    ensures G.blocks.Keys == {ROOT, LEAF} + G.gateBlocks.Values + CallBlockIds(G)
    ensures {ROOT, LEAF} !! G.gateBlocks.Values && {ROOT, LEAF} + G.gateBlocks.Values !! CallBlockIds(G)
  {
    hide Built;
    forall b
      ensures b in G.blocks <==> b in {ROOT, LEAF} + G.gateBlocks.Values + CallBlockIds(G)
      ensures b in G.gateBlocks.Values ==> b !in {ROOT, LEAF} && b !in CallBlockIds(G)
      ensures b in CallBlockIds(G) ==> b !in {ROOT, LEAF}
    {
      KindOf(x, G, W, b);
    }
  }

  lemma KindOf(x: Context, G: Graph, W: Owners, b: BlockId)
    requires Built(x, G, W)
    ensures b in G.blocks <==> b == ROOT || b == LEAF || b in G.gateBlocks.Values || b in CallBlockIds(G)
    ensures b in G.gateBlocks.Values ==> b in G.blocks && G.blocks[b].GateBlock? && 2 <= b
    ensures b in CallBlockIds(G) ==> b in G.blocks && G.blocks[b].CallBlock? && 2 <= b
  {
    hide Prepared, OwnersOk, MembersOk, WiringOk, HeightsOk, IsBlockOfCall;
    if b in G.gateBlocks.Values {
      var k :| k in G.gateBlocks && G.gateBlocks[k] == b;
      assert KeyOk(G, k);
    }
    if b in CallBlockIds(G) {
    }
    if b in G.blocks && 2 <= b {
      if G.blocks[b].GateBlock? {
        assert HasKey(G, b);
      } else {
        assert G.callBlocks[G.blocks[b].callId] == b;
      }
    }
  }
}
