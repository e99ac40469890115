/** assign_closest_output: the depths of the OUTPUTs that each gate influences. */
module OutputDepths {
  import opened GateGraph
  import opened GateDepth
  import opened DepthSearch

  /** std::numeric_limits<int>::max(), the depth of circuit-level outputs */
  const MAX_DEPTH: int := 0x7FFF_FFFF

  type OutputSets = map<GateId, set<int>>

  ghost predicate Bounded(c: Circuit, rank: GateId -> nat, top: nat) {
    forall g | g in c.gates :: rank(g) < top
  }

  /** An argument's depth is missing if the results of its call are not used. */
  ghost function OwnDepth(c: Circuit, depths: Depths, g: GateId): (s: set<int>) {
    if !IsCallArgument(c, g) then {MAX_DEPTH} else if g in depths then {depths[g]} else {}
  }

  lemma FanoutIsHigher(c: Circuit, rank: GateId -> nat, g: GateId, i: nat)
    requires WellFormed(c, rank) && g in c.gates && i < |c.gates[g].fanouts|
    ensures var t := c.gates[g].fanouts[i].target.gate; t in c.gates && rank(g) < rank(t)
  {
    assert FanoutMirrored(c.gates, g, i);
    var f := c.gates[g].fanouts[i];
    assert Wire(g, f.pin) in c.gates[f.target.gate].fanins;
  }

  /** The output depths of g, by recursion along the wires. */
  ghost function Outs(c: Circuit, rank: GateId -> nat, top: nat, depths: Depths, g: GateId): (s: set<int>)
    requires WellFormed(c, rank) && Bounded(c, rank, top) && g in c.gates
    decreases top - rank(g), 1, 0
  {
    if c.gates[g].op == OUTPUT then OwnDepth(c, depths, g)
    else FanoutOuts(c, rank, top, depths, g, |c.gates[g].fanouts|)
  }

  /** The union over the first n fanouts. */
  ghost function FanoutOuts(c: Circuit, rank: GateId -> nat, top: nat, depths: Depths, g: GateId, n: nat): (s: set<int>)
    requires WellFormed(c, rank) && Bounded(c, rank, top) && g in c.gates && n <= |c.gates[g].fanouts|
    decreases top - rank(g), 0, n
  {
    if n == 0 then {}
    else
      FanoutIsHigher(c, rank, g, n - 1);
      FanoutOuts(c, rank, top, depths, g, n - 1)
      + Outs(c, rank, top, depths, c.gates[g].fanouts[n - 1].target.gate)
  }

  ghost predicate Feeds(gates: Gates, g: GateId, t: GateId) {
    g in gates && t in gates
    && exists k :: 0 <= k < |gates[g].fanouts| && gates[g].fanouts[k].target.gate == t
  }

  /** A forward path along wires. */
  ghost predicate IsWirePath(gates: Gates, p: seq<GateId>) {
    && p != [] && p[0] in gates
    && forall i | 0 <= i < |p| - 1 :: Feeds(gates, p[i], p[i + 1])
  }

  lemma TailIsWirePath(gates: Gates, p: seq<GateId>)
    requires IsWirePath(gates, p) && |p| > 1
    ensures IsWirePath(gates, p[1..]) && Feeds(gates, p[0], p[1])
  {
    var t := p[1..];
    assert Feeds(gates, p[0], p[0 + 1]);
    forall i | 0 <= i < |t| - 1
      ensures Feeds(gates, t[i], t[i + 1])
    {
      assert Feeds(gates, p[i + 1], p[i + 1 + 1]);
    }
  }

  lemma LongerWirePath(gates: Gates, g: GateId, t: seq<GateId>)
    requires IsWirePath(gates, t) && Feeds(gates, g, t[0])
    ensures IsWirePath(gates, [g] + t)
  {
    var p := [g] + t;
    forall i | 0 <= i < |p| - 1
      ensures Feeds(gates, p[i], p[i + 1])
    {
      if i > 0 {
        assert Feeds(gates, t[i - 1], t[i - 1 + 1]);
      }
    }
  }

  lemma {:induction false} FanoutOutsContain(c: Circuit, rank: GateId -> nat, top: nat, depths: Depths, g: GateId, n: nat, i: nat)
    requires WellFormed(c, rank) && Bounded(c, rank, top) && g in c.gates && i < n <= |c.gates[g].fanouts|
    ensures var t := c.gates[g].fanouts[i].target.gate;
            t in c.gates && Outs(c, rank, top, depths, t) <= FanoutOuts(c, rank, top, depths, g, n)
    decreases n
  {
    FanoutIsHigher(c, rank, g, i);
    if i < n - 1 {
      FanoutOutsContain(c, rank, top, depths, g, n - 1, i);
    }
  }

  lemma {:induction false} FanoutOutsReached(c: Circuit, rank: GateId -> nat, top: nat, depths: Depths, g: GateId, n: nat, d: int)
    returns (i: nat)
    requires WellFormed(c, rank) && Bounded(c, rank, top) && g in c.gates && n <= |c.gates[g].fanouts|
    requires d in FanoutOuts(c, rank, top, depths, g, n)
    ensures i < n
    ensures var t := c.gates[g].fanouts[i].target.gate;
            t in c.gates && rank(g) < rank(t) && d in Outs(c, rank, top, depths, t)
    decreases n
  {
    FanoutIsHigher(c, rank, g, n - 1);
    i := n - 1;
    if d !in Outs(c, rank, top, depths, c.gates[g].fanouts[n - 1].target.gate) {
      i := FanoutOutsReached(c, rank, top, depths, g, n - 1, d);
    }
  }

  /** Every OUTPUT at the end of a path contributes its depth ... */
  lemma {:induction false} PathContributes(c: Circuit, rank: GateId -> nat, top: nat, depths: Depths, p: seq<GateId>)
    requires WellFormed(c, rank) && Bounded(c, rank, top) && IsWirePath(c.gates, p)
    requires p[|p| - 1] in c.gates && c.gates[p[|p| - 1]].op == OUTPUT
    ensures OwnDepth(c, depths, p[|p| - 1]) <= Outs(c, rank, top, depths, p[0])
    decreases |p|
  {
    if |p| > 1 {
      TailIsWirePath(c.gates, p);
      var fanouts := c.gates[p[0]].fanouts;
      var k :| 0 <= k < |fanouts| && fanouts[k].target.gate == p[1];
      PathContributes(c, rank, top, depths, p[1..]);
      FanoutOutsContain(c, rank, top, depths, p[0], |fanouts|, k);
      OnlyOutputsEnd(c, rank, p[0], k);
    }
  }

  lemma OnlyOutputsEnd(c: Circuit, rank: GateId -> nat, g: GateId, k: nat)
    requires WellFormed(c, rank) && g in c.gates && k < |c.gates[g].fanouts|
    ensures c.gates[g].op != OUTPUT
  {
  }

  /** ... and nothing else does. */
  lemma {:induction false} ContributionHasPath(c: Circuit, rank: GateId -> nat, top: nat, depths: Depths, g: GateId, d: int)
    returns (p: seq<GateId>)
    requires WellFormed(c, rank) && Bounded(c, rank, top) && g in c.gates && d in Outs(c, rank, top, depths, g)
    ensures IsWirePath(c.gates, p) && p[0] == g && p[|p| - 1] in c.gates
    ensures c.gates[p[|p| - 1]].op == OUTPUT && d in OwnDepth(c, depths, p[|p| - 1])
    decreases top - rank(g)
  {
    hide WellFormed, FanoutOuts;
    if c.gates[g].op == OUTPUT {
      p := [g];
    } else {
      var k := FanoutOutsReached(c, rank, top, depths, g, |c.gates[g].fanouts|, d);
      var t := ContributionHasPath(c, rank, top, depths, c.gates[g].fanouts[k].target.gate, d);
      assert Feeds(c.gates, g, t[0]);
      LongerWirePath(c.gates, g, t);
      p := [g] + t;
    }
  }

  /** The output depths of a gate are among those of each of its fanins. */
  lemma OutsShrink(c: Circuit, rank: GateId -> nat, top: nat, depths: Depths, g: GateId, i: nat)
    requires WellFormed(c, rank) && Bounded(c, rank, top) && g in c.gates && i < |c.gates[g].fanins|
    ensures var f := c.gates[g].fanins[i].gate;
            f in c.gates && Outs(c, rank, top, depths, g) <= Outs(c, rank, top, depths, f)
  {
    FaninIsNoArgument(c, rank, g, i);
    assert FaninMirrored(c.gates, g, i);
    var w := c.gates[g].fanins[i];
    var k :| 0 <= k < |c.gates[w.gate].fanouts| && c.gates[w.gate].fanouts[k] == Fanout(w.pin, Wire(g, i));
    FanoutOutsContain(c, rank, top, depths, w.gate, |c.gates[w.gate].fanouts|, k);
  }

  ghost predicate SetCorrect(c: Circuit, rank: GateId -> nat, top: nat, depths: Depths, m: OutputSets, g: GateId)
    requires WellFormed(c, rank) && Bounded(c, rank, top) && g in m
  {
    && g in c.gates && m[g] == Outs(c, rank, top, depths, g)
    && forall f | f in c.gates[g].fanouts :: f.target.gate in m
  }

  ghost predicate SetsCorrect(c: Circuit, rank: GateId -> nat, top: nat, depths: Depths, m: OutputSets)
    requires WellFormed(c, rank) && Bounded(c, rank, top)
  {
    forall g | g in m :: SetCorrect(c, rank, top, depths, m, g)
  }

  lemma AddSet(c: Circuit, rank: GateId -> nat, top: nat, depths: Depths, m: OutputSets, g: GateId, s: set<int>)
    requires WellFormed(c, rank) && Bounded(c, rank, top) && SetsCorrect(c, rank, top, depths, m)
    requires g in c.gates && s == Outs(c, rank, top, depths, g)
    requires forall f | f in c.gates[g].fanouts :: f.target.gate in m
    ensures SetsCorrect(c, rank, top, depths, m[g := s])
  {
    var m' := m[g := s];
    forall x | x in m'
      ensures SetCorrect(c, rank, top, depths, m', x)
    {
      if x != g {
        assert SetCorrect(c, rank, top, depths, m, x);
      }
    }
  }

  /** Starting from the gates without fanins, the forward traversal reaches every gate. */
  lemma {:induction false} AllReached(c: Circuit, rank: GateId -> nat, top: nat, depths: Depths, m: OutputSets, g: GateId)
    requires WellFormed(c, rank) && Bounded(c, rank, top) && SetsCorrect(c, rank, top, depths, m)
    requires c.roots <= m.Keys && g in c.gates
    ensures g in m
    decreases rank(g)
  {
    if c.gates[g].fanins != [] {
      assert FaninMirrored(c.gates, g, 0);
      var w := c.gates[g].fanins[0];
      assert w in c.gates[g].fanins;
      AllReached(c, rank, top, depths, m, w.gate);
      assert SetCorrect(c, rank, top, depths, m, w.gate);
    }
  }

  /** assign_output_calls, of which only the set of keys is used. */
  method AssignOutputCalls(c: Circuit, ghost rank: GateId -> nat) returns (outputToCall: map<GateId, nat>)
    requires WellFormed(c, rank)
    ensures forall g :: g in outputToCall <==> IsCallArgument(c, g)
    ensures forall g | g in outputToCall :: IsArgument(c, outputToCall[g], g)
  {
    hide WellFormed;
    outputToCall := map[];
    for k := 0 to |c.calls|
      invariant forall g | g in outputToCall :: IsArgument(c, outputToCall[g], g)
      invariant forall l: nat, g | l < k && IsArgument(c, l, g) :: g in outputToCall
    {
      var args := c.calls[k].args;
      ghost var before := outputToCall;
      for i := 0 to |args|
        invariant forall g | g in outputToCall :: IsArgument(c, outputToCall[g], g)
        invariant before.Keys <= outputToCall.Keys && forall g | g in args[..i] :: g in outputToCall
      {
        assert IsArgument(c, k, args[i]);
        outputToCall := outputToCall[args[i] := k];
      }
      assert args[..|args|] == args;
    }
  }

  /** assign_closest_output, with gate_closest_output as the state. */
  class ClosestOutputs {
    const c: Circuit
    ghost const rank: GateId -> nat
    ghost const top: nat
    const outputToCall: map<GateId, nat>
    const gateDepths: Depths
    var closest: OutputSets

    constructor (c: Circuit, ghost rank: GateId -> nat, ghost top: nat, outputToCall: map<GateId, nat>, gateDepths: Depths)
      requires WellFormed(c, rank) && Bounded(c, rank, top)
      requires forall g :: g in outputToCall <==> IsCallArgument(c, g)
      ensures Valid() && closest == map[] && this.c == c && this.rank == rank && this.top == top
      ensures this.gateDepths == gateDepths
    {
      this.c := c;
      this.rank := rank;
      this.top := top;
      this.outputToCall := outputToCall;
      this.gateDepths := gateDepths;
      closest := map[];
    }

    ghost predicate Valid()
      reads this
    {
      && WellFormed(c, rank) && Bounded(c, rank, top)
      && SetsCorrect(c, rank, top, gateDepths, closest)
      && (forall g :: g in outputToCall <==> IsCallArgument(c, g))
    }

    method AssignClosestOutput(g: GateId) returns (outs: set<int>)
      requires Valid() && g in c.gates
      modifies this`closest
      ensures Valid() && old(closest).Keys <= closest.Keys && g in closest
      ensures outs == Outs(c, rank, top, gateDepths, g)
      decreases top - rank(g)
    {
      hide WellFormed, Bounded, SetsCorrect, Outs, FanoutOuts;
      if g in closest {
        SetOf(c, rank, top, gateDepths, closest, g);
        return closest[g];
      }
      outs := {};
      if c.gates[g].op == OUTPUT {
        if g !in outputToCall {
          outs := outs + {MAX_DEPTH};
        } else if g in gateDepths {
          outs := outs + {gateDepths[g]};
        }
        OutsOfOutput(c, rank, top, gateDepths, g);
      } else {
        OutsOfGate(c, rank, top, gateDepths, g);
        var fanouts := c.gates[g].fanouts;
        for i := 0 to |fanouts|
          invariant Valid() && old(closest).Keys <= closest.Keys
          invariant forall f | f in fanouts[..i] :: f.target.gate in closest
          invariant outs == FanoutOuts(c, rank, top, gateDepths, g, i)
        {
          NextFanout(c, rank, top, gateDepths, g, i);
          var cur := AssignClosestOutput(fanouts[i].target.gate);
          outs := outs + cur;
        }
        assert fanouts[..|fanouts|] == fanouts;
      }
      AddSet(c, rank, top, gateDepths, closest, g, outs);
      closest := closest[g := outs];
    }

    /** The loop over the root gates in build_parallel_execution_graph. */
    method AssignClosestOutputs()
      requires Valid() && closest == map[]
      modifies this`closest
      ensures Valid() && closest.Keys == c.gates.Keys
    {
      hide Bounded, SetsCorrect, Outs, FanoutOuts;
      var todo := c.roots;
      while todo != {}
        invariant Valid() && todo <= c.roots && c.roots - todo <= closest.Keys
        decreases todo
      {
        var g :| g in todo;
        todo := todo - {g};
        var _ := AssignClosestOutput(g);
      }
      AllKeys(c, rank, top, gateDepths, closest);
    }
  }

  lemma SetOf(c: Circuit, rank: GateId -> nat, top: nat, depths: Depths, m: OutputSets, g: GateId)
    requires WellFormed(c, rank) && Bounded(c, rank, top) && SetsCorrect(c, rank, top, depths, m) && g in m
    ensures g in c.gates && m[g] == Outs(c, rank, top, depths, g)
  {
    assert SetCorrect(c, rank, top, depths, m, g);
  }

  lemma OutsOfOutput(c: Circuit, rank: GateId -> nat, top: nat, depths: Depths, g: GateId)
    requires WellFormed(c, rank) && Bounded(c, rank, top) && g in c.gates && c.gates[g].op == OUTPUT
    ensures Outs(c, rank, top, depths, g) == OwnDepth(c, depths, g) && c.gates[g].fanouts == []
  {
  }

  lemma OutsOfGate(c: Circuit, rank: GateId -> nat, top: nat, depths: Depths, g: GateId)
    requires WellFormed(c, rank) && Bounded(c, rank, top) && g in c.gates && c.gates[g].op != OUTPUT
    ensures Outs(c, rank, top, depths, g) == FanoutOuts(c, rank, top, depths, g, |c.gates[g].fanouts|)
    ensures FanoutOuts(c, rank, top, depths, g, 0) == {}
  {
  }

  lemma NextFanout(c: Circuit, rank: GateId -> nat, top: nat, depths: Depths, g: GateId, i: nat)
    requires WellFormed(c, rank) && Bounded(c, rank, top) && g in c.gates && i < |c.gates[g].fanouts|
    ensures var t := c.gates[g].fanouts[i].target.gate;
            && t in c.gates && rank(g) < rank(t) < top
            && FanoutOuts(c, rank, top, depths, g, i + 1)
               == FanoutOuts(c, rank, top, depths, g, i) + Outs(c, rank, top, depths, t)
  {
    FanoutIsHigher(c, rank, g, i);
  }

  lemma AllKeys(c: Circuit, rank: GateId -> nat, top: nat, depths: Depths, m: OutputSets)
    requires WellFormed(c, rank) && Bounded(c, rank, top) && SetsCorrect(c, rank, top, depths, m)
    requires c.roots <= m.Keys
    ensures m.Keys == c.gates.Keys
  {
    forall g | g in c.gates
      ensures g in m
    {
      AllReached(c, rank, top, depths, m, g);
    }
    forall g | g in m
      ensures g in c.gates
    {
      SetOf(c, rank, top, depths, m, g);
    }
  }
}
