/** compute_gate_depths: the memoising recursion that fills gate_depths. */
module DepthSearch {
  import opened Basics
  import opened GateGraph
  import opened GateDepth

  type Depths = map<GateId, int>

  ghost function RankBound(rank: GateId -> nat, gates: seq<GateId>): (b: nat)
    ensures forall g | g in gates :: rank(g) < b
  {
    if gates == [] then 0
    else Max(RankBound(rank, gates[..|gates| - 1]), rank(gates[|gates| - 1]) + 1)
  }

  lemma {:induction false} BoundIsIrrelevant(c: Circuit, rank: GateId -> nat, b: nat, b': nat, deps: seq<GateId>)
    requires WellFormed(c, rank) && forall d | d in deps :: d in c.gates && rank(d) < b && rank(d) < b'
    ensures MaxDepth(c, rank, b, deps) == MaxDepth(c, rank, b', deps)
    decreases |deps|
  {
    if deps != [] {
      BoundIsIrrelevant(c, rank, b, b', deps[..|deps| - 1]);
    }
  }

  /** The depth of a call is the maximum depth of its arguments. */
  ghost function CallDepth(c: Circuit, rank: GateId -> nat, k: nat): (d: nat)
    requires WellFormed(c, rank) && k < |c.calls|
  {
    ArgumentsAreGates(c, rank, k);
    MaxDepth(c, rank, RankBound(rank, c.calls[k].args), c.calls[k].args)
  }

  lemma ArgumentsAreGates(c: Circuit, rank: GateId -> nat, k: nat)
    requires WellFormed(c, rank) && k < |c.calls|
    ensures forall a | a in c.calls[k].args :: a in c.gates && c.gates[a].op == OUTPUT
    ensures forall r | r in c.calls[k].results :: r in c.gates && c.gates[r].op == INPUT
  {
    forall a | a in c.calls[k].args
      ensures a in c.gates && c.gates[a].op == OUTPUT
    {
      assert IsArgument(c, k, a);
    }
    forall r | r in c.calls[k].results
      ensures r in c.gates && c.gates[r].op == INPUT
    {
      assert IsResult(c, k, r);
    }
  }

  lemma DepthOfResult(c: Circuit, rank: GateId -> nat, k: nat, r: GateId)
    requires WellFormed(c, rank) && IsResult(c, k, r)
    ensures r in c.gates && IsCallResult(c, r) && !IsCallArgument(c, r)
    ensures Dependencies(c, r) == c.calls[k].args
    ensures IsDepthOf(c, rank, r, CallDepth(c, rank, k) + 1)
  {
    assert IsResult(c, CallOfResult(c, r), r);
    DependenciesAreLower(c, rank, r);
    ArgumentsAreGates(c, rank, k);
    BoundIsIrrelevant(c, rank, rank(r), RankBound(rank, c.calls[k].args), c.calls[k].args);
  }

  lemma DepthOfArgument(c: Circuit, rank: GateId -> nat, k: nat, a: GateId)
    requires WellFormed(c, rank) && IsArgument(c, k, a)
    ensures a in c.gates && !IsCallResult(c, a)
    ensures Depth(c, rank, a) <= CallDepth(c, rank, k)
  {
    ArgumentsAreGates(c, rank, k);
    MaxDepthBounds(c, rank, RankBound(rank, c.calls[k].args), c.calls[k].args, a);
  }

  /** Circuit-level INPUTs have depth 0 without an entry. */
  ghost predicate Known(c: Circuit, m: Depths, g: GateId) {
    g in m || (g in c.gates && c.gates[g].op == INPUT && !IsCallResult(c, g))
  }

  /** The depth found for g; for an argument it may already have been raised to its call's depth. */
  ghost predicate IsDepthOf(c: Circuit, rank: GateId -> nat, g: GateId, d: int)
    requires WellFormed(c, rank) && g in c.gates
  {
    if IsCallArgument(c, g) then
      Depth(c, rank, g) <= d && forall k: nat | IsArgument(c, k, g) :: d <= CallDepth(c, rank, k)
    else
      d == Depth(c, rank, g)
  }

  ghost predicate EntryCorrect(c: Circuit, rank: GateId -> nat, m: Depths, g: GateId)
    requires WellFormed(c, rank) && g in m
  {
    && g in c.gates && IsDepthOf(c, rank, g, m[g])
    && forall d | d in Dependencies(c, g) :: Known(c, m, d)
  }

  ghost predicate Correct(c: Circuit, rank: GateId -> nat, m: Depths)
    requires WellFormed(c, rank)
  {
    forall g | g in m :: EntryCorrect(c, rank, m, g)
  }

  ghost predicate SettledAt(c: Circuit, rank: GateId -> nat, m: Depths, k: nat, a: GateId)
    requires WellFormed(c, rank) && IsArgument(c, k, a) && a in m
  {
    m[a] == CallDepth(c, rank, k)
  }

  ghost function Elements(s: seq<GateId>): (e: set<GateId>) { set g | g in s }

  lemma ElementsStep(s: seq<GateId>, i: nat)
    requires i < |s|
    ensures Elements(s[..i + 1]) == Elements(s[..i]) + {s[i]}
  {
  }

  lemma NothingPending(pending: set<GateId>, s: seq<GateId>)
    ensures pending + Elements(s[..0]) == pending
  {
  }

  lemma OneMorePending(pending: set<GateId>, s: seq<GateId>, i: nat)
    requires i < |s|
    ensures pending + Elements(s[..i]) + {s[i]} == pending + Elements(s[..i + 1])
  {
    ElementsStep(s, i);
  }

  /** Outside pending, every argument with an entry has the depth of its call. */
  ghost predicate Settled(c: Circuit, rank: GateId -> nat, m: Depths, pending: set<GateId>)
    requires WellFormed(c, rank)
  {
    forall k: nat, a | IsArgument(c, k, a) && a in m && a !in pending :: SettledAt(c, rank, m, k, a)
  }

  /** Adding an entry whose dependencies are known. */
  lemma AddEntry(c: Circuit, rank: GateId -> nat, m: Depths, g: GateId, d: int, pending: set<GateId>)
    requires WellFormed(c, rank) && Correct(c, rank, m) && Settled(c, rank, m, pending)
    requires g in c.gates && IsDepthOf(c, rank, g, d) && forall x | x in Dependencies(c, g) :: Known(c, m, x)
    ensures Correct(c, rank, m[g := d]) && Settled(c, rank, m[g := d], pending + {g})
  {
    var m' := m[g := d];
    forall x | x in m'
      ensures EntryCorrect(c, rank, m', x)
    {
      if x != g {
        assert EntryCorrect(c, rank, m, x);
      }
    }
    forall k: nat, a | IsArgument(c, k, a) && a in m' && a !in pending + {g}
      ensures SettledAt(c, rank, m', k, a)
    {
      assert SettledAt(c, rank, m, k, a);
    }
  }

  /** Once all arguments of a call have entries, they are all raised to the depth of the call. */
  lemma SettleCall(c: Circuit, rank: GateId -> nat, m: Depths, m': Depths, k: nat, pending: set<GateId>)
    requires WellFormed(c, rank) && Correct(c, rank, m) && k < |c.calls|
    requires Settled(c, rank, m, pending + Elements(c.calls[k].args))
    requires forall a | a in c.calls[k].args :: a in m
    requires m'.Keys == m.Keys
    requires forall g | g in m :: m'[g] == if g in c.calls[k].args then CallDepth(c, rank, k) else m[g]
    ensures Correct(c, rank, m') && Settled(c, rank, m', pending)
  {
    forall g | g in m'
      ensures EntryCorrect(c, rank, m', g)
    {
      assert EntryCorrect(c, rank, m, g);
      if g in c.calls[k].args {
        assert IsArgument(c, k, g);
        DepthOfArgument(c, rank, k, g);
      }
    }
    forall l: nat, a | IsArgument(c, l, a) && a in m' && a !in pending
      ensures SettledAt(c, rank, m', l, a)
    {
      if a in c.calls[k].args {
        assert IsArgument(c, k, a);
      } else {
        assert SettledAt(c, rank, m, l, a);
      }
    }
  }

  /** The results of a settled call get the next depth. */
  lemma AddResults(c: Circuit, rank: GateId -> nat, m: Depths, m': Depths, k: nat, pending: set<GateId>)
    requires WellFormed(c, rank) && Correct(c, rank, m) && Settled(c, rank, m, pending) && k < |c.calls|
    requires forall a | a in c.calls[k].args :: a in m
    requires forall g :: g in m' <==> g in m || g in c.calls[k].results
    requires forall g | g in m' :: m'[g] == if g in c.calls[k].results then CallDepth(c, rank, k) + 1 else m[g]
    ensures Correct(c, rank, m') && Settled(c, rank, m', pending)
  {
    forall g | g in m'
      ensures EntryCorrect(c, rank, m', g)
    {
      if g in c.calls[k].results {
        assert IsResult(c, k, g);
        DepthOfResult(c, rank, k, g);
      } else {
        assert EntryCorrect(c, rank, m, g);
      }
    }
    ArgumentsAreGates(c, rank, k);
    forall l: nat, a | IsArgument(c, l, a) && a in m' && a !in pending
      ensures SettledAt(c, rank, m', l, a)
    {
      assert SettledAt(c, rank, m, l, a);
    }
  }

  /** Fanins are never arguments, so the depths found for them are exact. */
  lemma FaninIsNoArgument(c: Circuit, rank: GateId -> nat, g: GateId, i: nat)
    requires WellFormed(c, rank) && g in c.gates && i < |c.gates[g].fanins|
    ensures var f := c.gates[g].fanins[i].gate;
            f in c.gates && !IsCallArgument(c, f) && c.gates[f].op != OUTPUT && rank(f) < rank(g)
  {
    var w := c.gates[g].fanins[i];
    assert FaninMirrored(c.gates, g, i);
    assert w in c.gates[g].fanins;
  }

  /** assign_input_calls: each call result is mapped to its call. */
  method AssignInputCalls(c: Circuit, ghost rank: GateId -> nat) returns (inputToCall: map<GateId, nat>)
    requires WellFormed(c, rank)
    ensures forall g :: g in inputToCall <==> IsCallResult(c, g)
    ensures forall g | g in inputToCall :: IsResult(c, inputToCall[g], g)
  {
    hide WellFormed;
    inputToCall := map[];
    for k := 0 to |c.calls|
      invariant forall g | g in inputToCall :: IsResult(c, inputToCall[g], g)
      invariant forall l: nat, g | l < k && IsResult(c, l, g) :: g in inputToCall
    {
      var results := c.calls[k].results;
      ghost var before := inputToCall;
      for i := 0 to |results|
        invariant forall g | g in inputToCall :: IsResult(c, inputToCall[g], g)
        invariant before.Keys <= inputToCall.Keys && forall g | g in results[..i] :: g in inputToCall
      {
        assert IsResult(c, k, results[i]);
        inputToCall := inputToCall[results[i] := k];
      }
      assert results[..|results|] == results;
    }
  }

  /** compute_gate_depth_rec and its caller, with gate_depths as the state. */
  class DepthComputation {
    const c: Circuit
    ghost const rank: GateId -> nat
    const inputToCall: map<GateId, nat>
    var gateDepths: Depths

    constructor (c: Circuit, ghost rank: GateId -> nat, inputToCall: map<GateId, nat>)
      requires WellFormed(c, rank)
      requires forall g :: g in inputToCall <==> IsCallResult(c, g)
      requires forall g | g in inputToCall :: IsResult(c, inputToCall[g], g)
      ensures Valid() && this.c == c && this.rank == rank && gateDepths == map[]
    {
      this.c := c;
      this.rank := rank;
      this.inputToCall := inputToCall;
      gateDepths := map[];
    }

    ghost predicate Valid()
      reads this
    {
      && WellFormed(c, rank) && Correct(c, rank, gateDepths)
      && (forall g :: g in inputToCall <==> IsCallResult(c, g))
      && (forall g | g in inputToCall :: IsResult(c, inputToCall[g], g))
    }

    method ComputeGateDepth(g: GateId, ghost pending: set<GateId>) returns (depth: int)
      requires Valid() && g in c.gates && Settled(c, rank, gateDepths, pending)
      modifies this`gateDepths
      ensures Valid() && Settled(c, rank, gateDepths, pending + {g})
      ensures old(gateDepths).Keys <= gateDepths.Keys && Known(c, gateDepths, g)
      ensures IsDepthOf(c, rank, g, depth)
      decreases rank(g)
    {
      hide WellFormed, Correct, Settled, IsDepthOf, Depth, MaxDepth, CallDepth, RankBound, Dependencies;
      if g in gateDepths {
        EntryOf(c, rank, gateDepths, g);
        PendingMore(c, rank, gateDepths, pending, {g});
        return gateDepths[g];
      }
      if c.gates[g].op == INPUT {
        if g !in inputToCall {
          DepthOfCircuitInput(c, rank, g);
          PendingMore(c, rank, gateDepths, pending, {g});
          return 0;
        }
        depth := ComputeCallDepth(g, inputToCall[g], pending);
        PendingMore(c, rank, gateDepths, pending, {g});
        return;
      }
      depth := 0;
      GateDependencies(c, rank, g);
      EmptyMaxDepth(c, rank, rank(g), Dependencies(c, g));
      var fanins := c.gates[g].fanins;
      for i := 0 to |fanins|
        invariant Valid() && Settled(c, rank, gateDepths, pending)
        invariant old(gateDepths).Keys <= gateDepths.Keys
        invariant forall d | d in Dependencies(c, g)[..i] :: Known(c, gateDepths, d)
        invariant depth == MaxDepth(c, rank, rank(g), Dependencies(c, g)[..i])
      {
        FaninIsNoArgument(c, rank, g, i);
        NextDependency(c, rank, g, i);
        var faninDepth := ComputeGateDepth(fanins[i].gate, pending);
        DropNonArgument(c, rank, gateDepths, pending, fanins[i].gate);
        ExactDepth(c, rank, fanins[i].gate, faninDepth);
        depth := Max(depth, faninDepth);
      }
      assert Dependencies(c, g)[..|fanins|] == Dependencies(c, g);
      if IsNonLinear(c.gates[g].op) {
        depth := depth + 1;
      }
      DepthOfGate(c, rank, g, depth);
      AddEntry(c, rank, gateDepths, g, depth, pending);
      gateDepths := gateDepths[g := depth];
    }

    method ComputeCallDepth(g: GateId, k: nat, ghost pending: set<GateId>) returns (depth: int)
      requires Valid() && IsResult(c, k, g) && Settled(c, rank, gateDepths, pending)
      modifies this`gateDepths
      ensures Valid() && Settled(c, rank, gateDepths, pending)
      ensures old(gateDepths).Keys <= gateDepths.Keys
      ensures forall r | r in c.calls[k].results :: r in gateDepths && gateDepths[r] == depth
      ensures forall a | a in c.calls[k].args :: a in gateDepths && gateDepths[a] == depth - 1
      ensures g in c.gates && IsDepthOf(c, rank, g, depth)
      decreases rank(g), 1
    {
      hide WellFormed, Correct, Settled, IsDepthOf, Depth, MaxDepth, CallDepth, RankBound, Dependencies;
      depth := ComputeArgumentDepths(g, k, pending);
      SettleArguments(k, depth, pending);
      depth := depth + 1;
      SetResults(k, depth, pending);
      ArgumentsAreNoResults(c, rank, k);
      DepthOfResult(c, rank, k, g);
    }

    method ComputeArgumentDepths(g: GateId, k: nat, ghost pending: set<GateId>) returns (depth: int)
      requires Valid() && IsResult(c, k, g) && Settled(c, rank, gateDepths, pending)
      modifies this`gateDepths
      ensures Valid() && Settled(c, rank, gateDepths, pending + Elements(c.calls[k].args))
      ensures old(gateDepths).Keys <= gateDepths.Keys
      ensures forall a | a in c.calls[k].args :: a in gateDepths
      ensures depth == CallDepth(c, rank, k)
      decreases rank(g), 0
    {
      hide WellFormed, Correct, Settled, IsDepthOf, Depth, MaxDepth, CallDepth, RankBound, Dependencies, Elements;
      depth := 0;
      var args := c.calls[k].args;
      ghost var bound := RankBound(rank, args);
      CallDepthIsMaximum(c, rank, k);
      EmptyMaxDepth(c, rank, bound, args);
      NothingPending(pending, args);
      for i := 0 to |args|
        invariant Valid() && Settled(c, rank, gateDepths, pending + Elements(args[..i]))
        invariant old(gateDepths).Keys <= gateDepths.Keys
        invariant forall a | a in args[..i] :: a in gateDepths
        invariant MaxDepth(c, rank, bound, args[..i]) <= depth <= CallDepth(c, rank, k)
      {
        NextArgument(c, rank, k, g, i);
        var faninDepth := ComputeGateDepth(args[i], pending + Elements(args[..i]));
        OneMorePending(pending, args, i);
        ArgumentDepthBounds(c, rank, k, args[i], faninDepth);
        depth := Max(depth, faninDepth);
      }
      assert args[..|args|] == args;
    }

    method SettleArguments(k: nat, depth: int, ghost pending: set<GateId>)
      requires Valid() && k < |c.calls| && depth == CallDepth(c, rank, k)
      requires Settled(c, rank, gateDepths, pending + Elements(c.calls[k].args))
      requires forall a | a in c.calls[k].args :: a in gateDepths
      modifies this`gateDepths
      ensures Valid() && Settled(c, rank, gateDepths, pending)
      ensures gateDepths.Keys == old(gateDepths).Keys
      ensures forall a | a in c.calls[k].args :: gateDepths[a] == depth
    {
      hide WellFormed, Correct, Settled, IsDepthOf, Depth, MaxDepth, CallDepth, RankBound, Dependencies;
      ghost var m := gateDepths;
      var args := c.calls[k].args;
      for i := 0 to |args|
        invariant gateDepths.Keys == m.Keys
        invariant forall g | g in m :: gateDepths[g] == if g in args[..i] then depth else m[g]
      {
        gateDepths := gateDepths[args[i] := depth];
      }
      assert args[..|args|] == args;
      SettleCall(c, rank, m, gateDepths, k, pending);
    }

    method SetResults(k: nat, depth: int, ghost pending: set<GateId>)
      requires Valid() && k < |c.calls| && depth == CallDepth(c, rank, k) + 1
      requires Settled(c, rank, gateDepths, pending)
      requires forall a | a in c.calls[k].args :: a in gateDepths
      modifies this`gateDepths
      ensures Valid() && Settled(c, rank, gateDepths, pending)
      ensures gateDepths.Keys == old(gateDepths).Keys + set r | r in c.calls[k].results
      ensures forall g | g in gateDepths :: gateDepths[g] == if g in c.calls[k].results then depth else old(gateDepths)[g]
    {
      hide WellFormed, Correct, Settled, IsDepthOf, Depth, MaxDepth, CallDepth, RankBound, Dependencies;
      ghost var m := gateDepths;
      var results := c.calls[k].results;
      for i := 0 to |results|
        invariant gateDepths.Keys == m.Keys + set r | r in results[..i]
        invariant forall g | g in gateDepths :: gateDepths[g] == if g in results[..i] then depth else m[g]
      {
        gateDepths := gateDepths[results[i] := depth];
      }
      assert results[..|results|] == results;
      AddResults(c, rank, m, gateDepths, k, pending);
    }

    /** compute_gate_depths */
    method ComputeGateDepths()
      requires Valid() && gateDepths == map[]
      modifies this`gateDepths
      ensures Valid() && Settled(c, rank, gateDepths, {})
      ensures forall o | o in c.outputs :: o in gateDepths
    {
      hide WellFormed, Correct, Settled, IsDepthOf, Depth, MaxDepth, CallDepth, RankBound, Dependencies;
      EmptySettled(c, rank);
      for i := 0 to |c.outputs|
        invariant Valid() && Settled(c, rank, gateDepths, {})
        invariant forall o | o in c.outputs[..i] :: o in gateDepths
      {
        OutputIsNoArgument(c, rank, c.outputs[i]);
        var _ := ComputeGateDepth(c.outputs[i], {});
        DropNonArgument(c, rank, gateDepths, {}, c.outputs[i]);
      }
      assert c.outputs[..|c.outputs|] == c.outputs;
    }
  }

  lemma ArgumentsAreNoResults(c: Circuit, rank: GateId -> nat, k: nat)
    requires WellFormed(c, rank) && k < |c.calls|
    ensures forall a | a in c.calls[k].args :: a !in c.calls[k].results
  {
    ArgumentsAreGates(c, rank, k);
  }

  lemma DepthOfCircuitInput(c: Circuit, rank: GateId -> nat, g: GateId)
    requires WellFormed(c, rank) && g in c.gates && c.gates[g].op == INPUT && !IsCallResult(c, g)
    ensures !IsCallArgument(c, g) && IsDepthOf(c, rank, g, 0)
  {
    DependenciesAreLower(c, rank, g);
    assert Dependencies(c, g) == [];
  }

  lemma CallDepthIsMaximum(c: Circuit, rank: GateId -> nat, k: nat)
    requires WellFormed(c, rank) && k < |c.calls|
    ensures forall a | a in c.calls[k].args :: a in c.gates && rank(a) < RankBound(rank, c.calls[k].args)
    ensures CallDepth(c, rank, k) == MaxDepth(c, rank, RankBound(rank, c.calls[k].args), c.calls[k].args)
  {
    ArgumentsAreGates(c, rank, k);
  }

  lemma EntryOf(c: Circuit, rank: GateId -> nat, m: Depths, g: GateId)
    requires WellFormed(c, rank) && Correct(c, rank, m) && g in m
    ensures g in c.gates && IsDepthOf(c, rank, g, m[g])
    ensures forall d | d in Dependencies(c, g) :: Known(c, m, d)
  {
    assert EntryCorrect(c, rank, m, g);
  }

  lemma PendingMore(c: Circuit, rank: GateId -> nat, m: Depths, pending: set<GateId>, more: set<GateId>)
    requires WellFormed(c, rank) && Settled(c, rank, m, pending)
    ensures Settled(c, rank, m, pending + more)
  {
  }

  lemma EmptySettled(c: Circuit, rank: GateId -> nat)
    requires WellFormed(c, rank)
    ensures Settled(c, rank, map[], {})
  {
  }

  lemma EmptyMaxDepth(c: Circuit, rank: GateId -> nat, bound: nat, deps: seq<GateId>)
    requires WellFormed(c, rank)
    ensures MaxDepth(c, rank, bound, deps[..0]) == 0
  {
  }

  lemma ExactDepth(c: Circuit, rank: GateId -> nat, g: GateId, d: int)
    requires WellFormed(c, rank) && g in c.gates && IsDepthOf(c, rank, g, d) && !IsCallArgument(c, g)
    ensures d == Depth(c, rank, g)
  {
  }

  lemma ArgumentDepthBounds(c: Circuit, rank: GateId -> nat, k: nat, a: GateId, d: int)
    requires WellFormed(c, rank) && IsArgument(c, k, a) && a in c.gates && IsDepthOf(c, rank, a, d)
    ensures Depth(c, rank, a) <= d <= CallDepth(c, rank, k)
  {
  }

  lemma GateDependencies(c: Circuit, rank: GateId -> nat, g: GateId)
    requires WellFormed(c, rank) && g in c.gates && c.gates[g].op != INPUT
    ensures !IsCallResult(c, g) && |Dependencies(c, g)| == |c.gates[g].fanins|
    ensures forall d | d in Dependencies(c, g) :: d in c.gates && rank(d) < rank(g)
  {
    DependenciesAreLower(c, rank, g);
  }

  lemma NextDependency(c: Circuit, rank: GateId -> nat, g: GateId, i: nat)
    requires WellFormed(c, rank) && g in c.gates && c.gates[g].op != INPUT && i < |c.gates[g].fanins|
    ensures var deps := Dependencies(c, g);
            && |deps| == |c.gates[g].fanins| && deps[i] == c.gates[g].fanins[i].gate
            && (forall d | d in deps :: d in c.gates && rank(d) < rank(g))
            && deps[..i + 1] == deps[..i] + [deps[i]]
            && MaxDepth(c, rank, rank(g), deps[..i + 1])
               == Max(MaxDepth(c, rank, rank(g), deps[..i]), Depth(c, rank, deps[i]))
  {
    GateDependencies(c, rank, g);
    var deps := Dependencies(c, g);
    assert deps[..i + 1][..i] == deps[..i];
  }

  lemma DepthOfGate(c: Circuit, rank: GateId -> nat, g: GateId, d: int)
    requires WellFormed(c, rank) && g in c.gates && c.gates[g].op != INPUT
    requires forall x | x in Dependencies(c, g) :: x in c.gates && rank(x) < rank(g)
    requires d == MaxDepth(c, rank, rank(g), Dependencies(c, g)) + NonLinear(c, g)
    ensures IsDepthOf(c, rank, g, d)
  {
    GateDependencies(c, rank, g);
    forall k: nat | IsArgument(c, k, g)
      ensures d <= CallDepth(c, rank, k)
    {
      DepthOfArgument(c, rank, k, g);
    }
  }

  lemma DropNonArgument(c: Circuit, rank: GateId -> nat, m: Depths, pending: set<GateId>, g: GateId)
    requires WellFormed(c, rank) && Settled(c, rank, m, pending + {g}) && !IsCallArgument(c, g)
    ensures Settled(c, rank, m, pending)
  {
    forall k: nat, a | IsArgument(c, k, a) && a in m && a !in pending
      ensures SettledAt(c, rank, m, k, a)
    {
      assert a != g;
    }
  }

  lemma NextArgument(c: Circuit, rank: GateId -> nat, k: nat, g: GateId, i: nat)
    requires WellFormed(c, rank) && IsResult(c, k, g) && i < |c.calls[k].args|
    ensures var args := c.calls[k].args;
            && args[i] in c.gates && rank(args[i]) < rank(g) && IsArgument(c, k, args[i])
            && c.gates[args[i]].op == OUTPUT
            && (forall a | a in args[..i + 1] :: a in c.gates && rank(a) < RankBound(rank, args))
            && MaxDepth(c, rank, RankBound(rank, args), args[..i + 1])
               == Max(MaxDepth(c, rank, RankBound(rank, args), args[..i]), Depth(c, rank, args[i]))
  {
    ArgumentsAreGates(c, rank, k);
    var args := c.calls[k].args;
    assert IsArgument(c, k, args[i]);
    assert args[..i + 1][..i] == args[..i];
  }

  lemma OutputIsNoArgument(c: Circuit, rank: GateId -> nat, o: GateId)
    requires WellFormed(c, rank) && o in c.outputs
    ensures o in c.gates && c.gates[o].op == OUTPUT && !IsCallArgument(c, o)
  {
  }
}
