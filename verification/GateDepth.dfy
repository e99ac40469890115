/** Non-linear gate depths through function calls, and the output depths each gate reaches. */
module GateDepth {
  import opened Basics
  import opened GateGraph

  /** function_callt, with the gates of all arguments and of all return values in order. */
  datatype Call = Call(id: int, name: string, args: seq<GateId>, results: seq<GateId>)

  /** outputs are the circuit-level OUTPUTs, roots the gates without fanins. */
  datatype Circuit = Circuit(gates: Gates, calls: seq<Call>, outputs: seq<GateId>, roots: set<GateId>)

  ghost predicate IsResult(c: Circuit, k: nat, g: GateId) { k < |c.calls| && g in c.calls[k].results }

  ghost predicate IsArgument(c: Circuit, k: nat, g: GateId) { k < |c.calls| && g in c.calls[k].args }

  ghost predicate CallsWellFormed(c: Circuit) {
    && (forall k: nat, g | IsResult(c, k, g) :: g in c.gates && c.gates[g].op == INPUT)
    && (forall k: nat, g | IsArgument(c, k, g) :: g in c.gates && c.gates[g].op == OUTPUT && g !in c.outputs)
    && (forall k: nat, l: nat, g | IsResult(c, k, g) && IsResult(c, l, g) :: k == l)
    && (forall k: nat, l: nat, g | IsArgument(c, k, g) && IsArgument(c, l, g) :: k == l)
    && (forall k, l | 0 <= k < l < |c.calls| :: c.calls[k].id != c.calls[l].id)
  }

  ghost predicate GatesWellFormed(c: Circuit) {
    && Mirrored(c.gates)
    && (forall g | g in c.gates && c.gates[g].op == INPUT :: c.gates[g].fanins == [])
    && (forall g | g in c.gates && c.gates[g].op == OUTPUT :: |c.gates[g].fanins| == 1 && c.gates[g].fanouts == [])
    && (forall g | g in c.outputs :: g in c.gates && c.gates[g].op == OUTPUT)
    && (forall g :: g in c.roots <==> g in c.gates && c.gates[g].fanins == [])
  }

  /**
   Gates plus call edges are acyclic: the gates can be numbered along the wires, with one number for
   all return values of a call, above those of its arguments.
   */
  ghost predicate CallsRanked(c: Circuit, rank: GateId -> nat) {
    && Ranked(c.gates, rank)
    && (forall k: nat, a, r | IsArgument(c, k, a) && IsResult(c, k, r) :: rank(a) < rank(r))
    && (forall k: nat, r, r' | IsResult(c, k, r) && IsResult(c, k, r') :: rank(r) == rank(r'))
  }

  ghost predicate WellFormed(c: Circuit, rank: GateId -> nat) {
    GatesWellFormed(c) && CallsWellFormed(c) && CallsRanked(c, rank)
  }

  function NonLinear(c: Circuit, g: GateId): (n: nat)
    requires g in c.gates
  {
    if IsNonLinear(c.gates[g].op) then 1 else 0
  }

  ghost predicate IsCallResult(c: Circuit, g: GateId) { exists k: nat :: IsResult(c, k, g) }

  ghost predicate IsCallArgument(c: Circuit, g: GateId) { exists k: nat :: IsArgument(c, k, g) }

  ghost function CallOfResult(c: Circuit, g: GateId): (k: nat)
    requires IsCallResult(c, g)
    ensures IsResult(c, k, g)
  {
    var k: nat :| IsResult(c, k, g);
    k
  }

  /** What a gate depends on directly: its fanins or, for a call's return value, the call's arguments. */
  ghost function Dependencies(c: Circuit, g: GateId): (deps: seq<GateId>)
    requires g in c.gates
  {
    if IsCallResult(c, g) then
      c.calls[CallOfResult(c, g)].args
    else
      seq(|c.gates[g].fanins|, i requires 0 <= i < |c.gates[g].fanins| => c.gates[g].fanins[i].gate)
  }

  /** What going through g adds to the depth. */
  ghost function Cost(c: Circuit, g: GateId): (n: nat)
    requires g in c.gates
  {
    if IsCallResult(c, g) then 1 else NonLinear(c, g)
  }

  lemma DependenciesAreLower(c: Circuit, rank: GateId -> nat, g: GateId)
    requires WellFormed(c, rank) && g in c.gates
    ensures forall d | d in Dependencies(c, g) :: d in c.gates && rank(d) < rank(g)
  {
    if IsCallResult(c, g) {
      var k := CallOfResult(c, g);
      forall d | d in Dependencies(c, g)
        ensures d in c.gates && rank(d) < rank(g)
      {
        assert IsArgument(c, k, d);
      }
    } else {
      forall d | d in Dependencies(c, g)
        ensures d in c.gates && rank(d) < rank(g)
      {
        var i :| 0 <= i < |c.gates[g].fanins| && d == c.gates[g].fanins[i].gate;
        assert c.gates[g].fanins[i] in c.gates[g].fanins;
      }
    }
  }

  /** The non-linear depth by recursion along the numbering. */
  ghost function Depth(c: Circuit, rank: GateId -> nat, g: GateId): (d: nat)
    requires WellFormed(c, rank) && g in c.gates
    decreases rank(g), 1, 0
  {
    DependenciesAreLower(c, rank, g);
    Cost(c, g) + MaxDepth(c, rank, rank(g), Dependencies(c, g))
  }

  ghost function MaxDepth(c: Circuit, rank: GateId -> nat, bound: nat, deps: seq<GateId>): (d: nat)
    requires WellFormed(c, rank) && forall d | d in deps :: d in c.gates && rank(d) < bound
    decreases bound, 0, |deps|
  {
    if deps == [] then 0
    else Max(MaxDepth(c, rank, bound, deps[..|deps| - 1]), Depth(c, rank, deps[|deps| - 1]))
  }

  /** A backward path: every gate is a dependency of the one before it. */
  ghost predicate IsPath(c: Circuit, p: seq<GateId>) {
    && p != [] && (forall g | g in p :: g in c.gates)
    && forall i | 0 <= i < |p| - 1 :: p[i + 1] in Dependencies(c, p[i])
  }

  /** The non-linear gates and the calls a path crosses. */
  ghost function PathCost(c: Circuit, p: seq<GateId>): (n: nat)
    requires forall g | g in p :: g in c.gates
  {
    if p == [] then 0 else Cost(c, p[0]) + PathCost(c, p[1..])
  }

  lemma {:induction false} MaxDepthBounds(c: Circuit, rank: GateId -> nat, bound: nat, deps: seq<GateId>, d: GateId)
    requires WellFormed(c, rank) && (forall d | d in deps :: d in c.gates && rank(d) < bound) && d in deps
    ensures Depth(c, rank, d) <= MaxDepth(c, rank, bound, deps)
    decreases |deps|
  {
    if d != deps[|deps| - 1] {
      MaxDepthBounds(c, rank, bound, deps[..|deps| - 1], d);
    }
  }

  lemma {:induction false} MaxDepthReached(c: Circuit, rank: GateId -> nat, bound: nat, deps: seq<GateId>) returns (d: GateId)
    requires WellFormed(c, rank) && (forall d | d in deps :: d in c.gates && rank(d) < bound) && deps != []
    ensures d in deps && Depth(c, rank, d) == MaxDepth(c, rank, bound, deps)
    decreases |deps|
  {
    d := deps[|deps| - 1];
    if |deps| > 1 && Depth(c, rank, d) < MaxDepth(c, rank, bound, deps[..|deps| - 1]) {
      d := MaxDepthReached(c, rank, bound, deps[..|deps| - 1]);
    }
  }

  /** No backward path from g costs more than the depth of g. */
  lemma {:induction false} PathsAreBounded(c: Circuit, rank: GateId -> nat, p: seq<GateId>)
    requires WellFormed(c, rank) && IsPath(c, p)
    ensures PathCost(c, p) <= Depth(c, rank, p[0])
    decreases |p|
  {
    var g := p[0];
    DependenciesAreLower(c, rank, g);
    if |p| > 1 {
      TailIsPath(c, p);
      PathsAreBounded(c, rank, p[1..]);
      MaxDepthBounds(c, rank, rank(g), Dependencies(c, g), p[1]);
    } else {
      assert PathCost(c, p[1..]) == 0;
    }
  }

  lemma TailIsPath(c: Circuit, p: seq<GateId>)
    requires IsPath(c, p) && |p| > 1
    ensures p[1] in Dependencies(c, p[0]) && IsPath(c, p[1..])
  {
    var t := p[1..];
    assert p[0 + 1] in Dependencies(c, p[0]);
    forall i | 0 <= i < |t| - 1
      ensures t[i + 1] in Dependencies(c, t[i])
    {
      assert p[i + 1 + 1] in Dependencies(c, p[i + 1]);
    }
  }

  /** Some backward path from g costs exactly its depth. */
  lemma {:induction false} DepthIsReached(c: Circuit, rank: GateId -> nat, g: GateId) returns (p: seq<GateId>)
    requires WellFormed(c, rank) && g in c.gates
    ensures IsPath(c, p) && p[0] == g && PathCost(c, p) == Depth(c, rank, g)
    decreases rank(g)
  {
    DependenciesAreLower(c, rank, g);
    var deps := Dependencies(c, g);
    if deps == [] {
      p := [g];
      assert PathCost(c, p[1..]) == 0;
    } else {
      var d := MaxDepthReached(c, rank, rank(g), deps);
      var t := DepthIsReached(c, rank, d);
      p := [g] + t;
      assert p[1..] == t;
      forall i | 0 <= i < |p| - 1
        ensures p[i + 1] in Dependencies(c, p[i])
      {
        if i > 0 {
          assert t[i - 1 + 1] in Dependencies(c, t[i - 1]);
        }
      }
    }
  }

  // ----- the costs by name -----

  /** A gate costs one if it is an AND, an OR or a MUL, or the result of a call. */
  ghost predicate IsCostly(c: Circuit, g: GateId) {
    g in c.gates && (c.gates[g].op == AND || c.gates[g].op == OR || c.gates[g].op == MUL || IsCallResult(c, g))
  }

  ghost function CostlyPositions(c: Circuit, p: seq<GateId>): (s: set<nat>) {
    set i: nat | i < |p| && IsCostly(c, p[i])
  }

  lemma CostByName(c: Circuit, rank: GateId -> nat, g: GateId)
    requires WellFormed(c, rank) && g in c.gates
    ensures Cost(c, g) == if IsCostly(c, g) then 1 else 0
  {
  }

  /** The cost of a path counts the gates and results on it that cost something. */
  lemma {:induction false} PathCostCounts(c: Circuit, rank: GateId -> nat, p: seq<GateId>)
    requires WellFormed(c, rank) && forall g | g in p :: g in c.gates
    ensures PathCost(c, p) == |CostlyPositions(c, p)|
    decreases |p|
  {
    hide WellFormed, IsCostly, Cost;
    if p != [] {
      var rest := p[1..];
      CostByName(c, rank, p[0]);
      PathCostCounts(c, rank, rest);
      ShiftedCount(CostlyPositions(c, rest), CostlyPositions(c, p), IsCostly(c, p[0]));
    } else {
      assert CostlyPositions(c, p) == {};
    }
  }

  lemma ShiftedCount(s: set<nat>, t: set<nat>, first: bool)
    requires (0 in t <==> first) && forall i: nat :: i in s <==> i + 1 in t
    ensures |t| == |s| + if first then 1 else 0
  {
    var shifted := set i | i in s :: i + 1;
    SameSize(s, shifted);
    var zero: set<nat> := if first then {0} else {};
    forall k: nat
      ensures k in t <==> k in shifted + zero
    {
      if k > 0 {
        var i: nat := k - 1;
        assert i in s <==> i + 1 in t;
        assert i in s ==> i + 1 in shifted;
      }
    }
    assert t == shifted + zero && shifted !! zero;
  }

  lemma {:induction false} SameSize(s: set<nat>, t: set<nat>)
    requires t == set i | i in s :: i + 1
    ensures |t| == |s|
    decreases s
  {
    if s != {} {
      var i :| i in s;
      var rest := s - {i};
      var image := set j | j in rest :: j + 1;
      SameSize(rest, image);
      assert i + 1 !in image && i + 1 in t;
      forall k | k in t
        ensures k in image + {i + 1}
      {
        var j: nat :| j in s && k == j + 1;
        assert j != i ==> j in rest;
      }
      assert image <= t;
      assert t == image + {i + 1};
    }
  }
}
