/** What the output depths of a block say about where the values of its gates go. */
module OutputReach {
  import opened GateGraph
  import opened GateDepth
  import opened DepthSearch
  import opened OutputDepths
  import opened BlockGraph
  import opened BlockOrder

  /** A circuit-level OUTPUT, and not the argument of a call. */
  ghost predicate IsCircuitOutput(c: Circuit, g: GateId) {
    g in c.gates && c.gates[g].op == OUTPUT && !IsCallArgument(c, g)
  }

  /** The value of g goes to a circuit-level OUTPUT along wires, with no call in between. */
  ghost predicate ReachesCircuitOutput(c: Circuit, g: GateId) {
    exists p :: IsWirePath(c.gates, p) && p[0] == g && IsCircuitOutput(c, p[|p| - 1])
  }

  /** The value of g goes along wires to the argument of a call of that depth. */
  ghost predicate ReachesCallAt(c: Circuit, depths: Depths, g: GateId, d: int) {
    exists p :: IsWirePath(c.gates, p) && p[0] == g && IsArgumentAt(c, depths, p[|p| - 1], d)
  }

  ghost predicate IsArgumentAt(c: Circuit, depths: Depths, a: GateId, d: int) {
    a in c.gates && c.gates[a].op == OUTPUT && IsCallArgument(c, a) && a in depths && depths[a] == d
  }

  // ----- depths are smaller than the circuit -----

  lemma {:induction false} PathDescends(c: Circuit, rank: GateId -> nat, p: seq<GateId>, i: nat, j: nat)
    requires WellFormed(c, rank) && IsPath(c, p) && i < j < |p|
    ensures rank(p[j]) < rank(p[i])
    decreases j
  {
    if i < j - 1 {
      PathDescends(c, rank, p, i, j - 1);
    }
    DependenciesAreLower(c, rank, p[j - 1]);
    assert p[j - 1 + 1] in Dependencies(c, p[j - 1]);
  }

  lemma {:induction false} CostAtMostLength(c: Circuit, p: seq<GateId>)
    requires forall g | g in p :: g in c.gates
    ensures PathCost(c, p) <= |p|
    decreases |p|
  {
    if p != [] {
      CostAtMostLength(c, p[1..]);
    }
  }

  lemma {:induction false} DistinctAtMost(p: seq<GateId>, s: set<GateId>)
    requires (forall g | g in p :: g in s) && forall i, j | 0 <= i < j < |p| :: p[i] != p[j]
    ensures |p| <= |s|
    decreases |p|
  {
    if p != [] {
      var t := p[1..];
      forall g | g in t
        ensures g in s - {p[0]}
      {
        var i :| 0 <= i < |t| && t[i] == g;
        assert p[0] != p[i + 1];
      }
      assert forall i, j | 0 <= i < j < |t| :: t[i] != t[j] by {
        forall i, j | 0 <= i < j < |t|
          ensures t[i] != t[j]
        {
          assert p[i + 1] != p[j + 1];
        }
      }
      DistinctAtMost(t, s - {p[0]});
    }
  }

  /** A path crosses no gate twice, so nothing is deeper than there are gates. */
  lemma DepthAtMostGates(c: Circuit, rank: GateId -> nat, g: GateId)
    requires WellFormed(c, rank) && g in c.gates
    ensures Depth(c, rank, g) <= |c.gates|
  {
    var p := DepthIsReached(c, rank, g);
    CostAtMostLength(c, p);
    forall i, j | 0 <= i < j < |p|
      ensures p[i] != p[j]
    {
      PathDescends(c, rank, p, i, j);
    }
    DistinctAtMost(p, c.gates.Keys);
    assert |c.gates.Keys| == |c.gates|;
  }

  lemma {:induction false} MaxDepthAtMostGates(c: Circuit, rank: GateId -> nat, bound: nat, deps: seq<GateId>)
    requires WellFormed(c, rank) && forall d | d in deps :: d in c.gates && rank(d) < bound
    ensures MaxDepth(c, rank, bound, deps) <= |c.gates|
    decreases |deps|
  {
    hide WellFormed, Depth;
    if deps != [] {
      MaxDepthAtMostGates(c, rank, bound, deps[..|deps| - 1]);
      DepthAtMostGates(c, rank, deps[|deps| - 1]);
    }
  }

  /** So is no entry that the depth search makes. */
  lemma EntryAtMostGates(c: Circuit, rank: GateId -> nat, depths: Depths, g: GateId)
    requires WellFormed(c, rank) && Correct(c, rank, depths) && g in depths
    ensures g in c.gates && depths[g] <= |c.gates|
  {
    hide WellFormed, Depth, MaxDepth;
    EntryOf(c, rank, depths, g);
    DepthAtMostGates(c, rank, g);
    if IsCallArgument(c, g) {
      var k: nat :| IsArgument(c, k, g);
      CallDepthIsMaximum(c, rank, k);
      MaxDepthAtMostGates(c, rank, RankBound(rank, c.calls[k].args), c.calls[k].args);
      ArgumentDepthBounds(c, rank, k, g, depths[g]);
    } else {
      ExactDepth(c, rank, g, depths[g]);
    }
  }

  // ----- what the sets mean -----

  /** The largest int is in the set exactly if a circuit-level OUTPUT is reached. */
  lemma OutsHasLargest(c: Circuit, rank: GateId -> nat, top: nat, depths: Depths, g: GateId)
    requires WellFormed(c, rank) && Bounded(c, rank, top) && Correct(c, rank, depths) && g in c.gates
    requires |c.gates| < 0x7FFF_FFFF
    ensures 0x7FFF_FFFF in Outs(c, rank, top, depths, g) <==> ReachesCircuitOutput(c, g)
  {
    hide WellFormed, Bounded, Correct, Outs;
    if 0x7FFF_FFFF in Outs(c, rank, top, depths, g) {
      var p := ContributionHasPath(c, rank, top, depths, g, 0x7FFF_FFFF);
      if IsCallArgument(c, p[|p| - 1]) {
        EntryAtMostGates(c, rank, depths, p[|p| - 1]);
      }
      assert IsCircuitOutput(c, p[|p| - 1]);
    }
    if p :| IsWirePath(c.gates, p) && p[0] == g && IsCircuitOutput(c, p[|p| - 1]) {
      PathContributes(c, rank, top, depths, p);
    }
  }

  /** The other entries are the depths of the calls that are reached. */
  lemma OutsHasCalls(c: Circuit, rank: GateId -> nat, top: nat, depths: Depths, g: GateId, d: int)
    requires WellFormed(c, rank) && Bounded(c, rank, top) && Correct(c, rank, depths) && g in c.gates
    requires |c.gates| < 0x7FFF_FFFF && d != 0x7FFF_FFFF
    ensures d in Outs(c, rank, top, depths, g) <==> ReachesCallAt(c, depths, g, d)
  {
    hide WellFormed, Bounded, Correct, Outs;
    if d in Outs(c, rank, top, depths, g) {
      var p := ContributionHasPath(c, rank, top, depths, g, d);
      assert IsArgumentAt(c, depths, p[|p| - 1], d);
    }
    if p :| IsWirePath(c.gates, p) && p[0] == g && IsArgumentAt(c, depths, p[|p| - 1], d) {
      PathContributes(c, rank, top, depths, p);
    }
  }

  /**
   The gates of a block go to the same places: two ordinary gates with the same owner both reach a
   circuit-level OUTPUT or neither does, and they reach calls of the same depths.
   */
  lemma SameBlockSamePlaces(x: Context, top: nat, G: Graph, W: Owners, g: GateId, h: GateId, d: int)
    requires Built(x, G, W) && WellFormed(x.c, x.rank) && Bounded(x.c, x.rank, top)
    requires Correct(x.c, x.rank, x.depths) && SetsCorrect(x.c, x.rank, top, x.depths, x.outs)
    requires |x.c.gates| < 0x7FFF_FFFF && d != 0x7FFF_FFFF
    requires g in W && h in W && g in x.c.gates && h in x.c.gates && IsOrdinary(x.c, g) && IsOrdinary(x.c, h)
    requires W[g] == W[h]
    ensures ReachesCircuitOutput(x.c, g) <==> ReachesCircuitOutput(x.c, h)
    ensures ReachesCallAt(x.c, x.depths, g, d) <==> ReachesCallAt(x.c, x.depths, h, d)
  {
    hide Built, WellFormed, Bounded, Correct, SetsCorrect, Outs, ReachesCircuitOutput, ReachesCallAt;
    SetOfOwned(x, top, G, W, g);
    SetOfOwned(x, top, G, W, h);
    OutsHasLargest(x.c, x.rank, top, x.depths, g);
    OutsHasLargest(x.c, x.rank, top, x.depths, h);
    OutsHasCalls(x.c, x.rank, top, x.depths, g, d);
    OutsHasCalls(x.c, x.rank, top, x.depths, h, d);
  }

  lemma SetOfOwned(x: Context, top: nat, G: Graph, W: Owners, g: GateId)
    requires Built(x, G, W) && WellFormed(x.c, x.rank) && Bounded(x.c, x.rank, top)
    requires SetsCorrect(x.c, x.rank, top, x.depths, x.outs)
    requires g in W && g in x.c.gates && IsOrdinary(x.c, g)
    ensures W[g] in G.blocks && G.blocks[W[g]].GateBlock?
    ensures G.blocks[W[g]].outputDepths == Outs(x.c, x.rank, top, x.depths, g)
  {
    RightBlockOf(x, G, W, g);
    hide Built, Bounded, Outs;
    NoCallResult(x.c, x.rank, g);
    hide WellFormed;
    assert SetCorrect(x.c, x.rank, top, x.depths, x.outs, g);
  }

  lemma NoCallResult(c: Circuit, rank: GateId -> nat, g: GateId)
    requires WellFormed(c, rank) && g in c.gates && c.gates[g].op != INPUT
    ensures !IsCallResult(c, g)
  {
  }
}
