/** structural_minimize: a cascade of equal operations becomes a balanced tree. */
module Structurize {
  import opened Powers
  import opened GateGraph
  import opened BooleanCircuit
  import opened LevelSearch
  import opened Simulation
  import opened SweepLevels
  import opened Rewiring

  // ----- folds -----

  predicate IsCascadeOp(op: Op) { op == AND || op == OR || op == XOR }

  function Combine(op: Op, a: bool, b: bool): (r: bool)
    requires IsCascadeOp(op)
  {
    match op
    case AND => a && b
    case OR => a || b
    case _ => a != b
  }

  function Neutral(op: Op): (b: bool) { op == AND }

  ghost function Fold(op: Op, xs: seq<bool>): (r: bool)
    requires IsCascadeOp(op)
  {
    if xs == [] then Neutral(op) else Combine(op, Fold(op, xs[..|xs| - 1]), xs[|xs| - 1])
  }

  lemma {:induction false} FoldAppend(op: Op, xs: seq<bool>, ys: seq<bool>)
    requires IsCascadeOp(op)
    ensures Fold(op, xs + ys) == Combine(op, Fold(op, xs), Fold(op, ys))
    decreases |ys|
  {
    if ys == [] {
      assert xs + ys == xs;
    } else {
      assert (xs + ys)[..|xs + ys| - 1] == xs + ys[..|ys| - 1];
      FoldAppend(op, xs, ys[..|ys| - 1]);
    }
  }

  lemma FoldOfOne(op: Op, x: bool)
    requires IsCascadeOp(op)
    ensures Fold(op, [x]) == x
  {
    assert Fold(op, [x][..0]) == Neutral(op);
  }

  /** One round: neighbours are combined, and a neutral element fills up the last pair. */
  ghost function PairUp(op: Op, xs: seq<bool>): (ys: seq<bool>)
    requires IsCascadeOp(op)
    ensures |ys| == (|xs| + 1) / 2
  {
    if xs == [] then []
    else if |xs| == 1 then [Combine(op, Neutral(op), xs[0])]
    else [Combine(op, xs[1], xs[0])] + PairUp(op, xs[2..])
  }

  lemma {:induction false} PairUpKeepsFold(op: Op, xs: seq<bool>)
    requires IsCascadeOp(op)
    ensures Fold(op, PairUp(op, xs)) == Fold(op, xs)
    decreases |xs|
  {
    hide Fold;
    if |xs| == 1 {
      assert xs == [xs[0]];
      FoldOfOne(op, xs[0]);
      FoldOfOne(op, PairUp(op, xs)[0]);
      assert PairUp(op, xs) == [PairUp(op, xs)[0]];
    } else if |xs| > 1 {
      PairUpKeepsFold(op, xs[2..]);
      FoldAppend(op, [Combine(op, xs[1], xs[0])], PairUp(op, xs[2..]));
      FoldAppend(op, [xs[0]] + [xs[1]], xs[2..]);
      FoldAppend(op, [xs[0]], [xs[1]]);
      FoldOfOne(op, xs[0]);
      FoldOfOne(op, xs[1]);
      FoldOfOne(op, Combine(op, xs[1], xs[0]));
      assert xs == [xs[0]] + [xs[1]] + xs[2..];
    }
  }

  /** How many rounds it takes: the logarithm, rounded up. */
  function Rounds(n: nat): (r: nat) { if n <= 1 then 0 else 1 + Rounds((n + 1) / 2) }

  lemma {:induction false} RoundsIsLogarithm(n: nat)
    requires n > 0
    ensures n <= Pow2(Rounds(n)) && (n > 1 ==> Rounds(n) > 0 && Pow2(Rounds(n) - 1) < n)
    ensures Rounds(n) <= n
    decreases n
  {
    if n > 1 {
      var m := (n + 1) / 2;
      RoundsIsLogarithm(m);
      assert n <= 2 * m <= n + 1;
      Pow2Step(Rounds(m));
      if Rounds(m) > 0 {
        Pow2Step(Rounds(m) - 1);
      }
    }
  }

  // ----- growing circuits -----

  ghost function ValuesOf(v: Valuation, ids: seq<GateId>): (xs: seq<bool>) {
    seq(|ids|, i requires 0 <= i < |ids| => v(ids[i]))
  }

  /** The old gates are as they were, except that they may have more fanouts. */
  ghost predicate Grown(gates: Gates, gates': Gates) {
    forall g | g in gates :: g in gates' && SameGate(gates[g], gates'[g])
  }

  ghost predicate SameGate(a: Gate, b: Gate) {
    a.op == b.op && a.width == b.width && a.value == b.value && a.fanins == b.fanins
  }

  lemma GrownTransitive(gates: Gates, gates': Gates, gates'': Gates)
    requires Grown(gates, gates') && Grown(gates', gates'')
    ensures Grown(gates, gates'')
  {
  }

  lemma GrownConsistent(gates: Gates, gates': Gates, v: Valuation)
    requires IsBoolean(gates) && IsBoolean(gates') && Grown(gates, gates') && Consistent(gates', v)
    ensures Consistent(gates, v)
  {
    hide Mirrored, Holds;
    forall g | g in gates
      ensures Holds(gates[g], g, v)
    {
      assert SameGate(gates[g], gates'[g]);
      assert Holds(gates'[g], g, v);
      SameGateHolds(gates[g], gates'[g], g, v);
    }
  }

  lemma SameGateHolds(a: Gate, b: Gate, g: GateId, v: Valuation)
    requires SameGate(a, b) && GateIsBoolean(a) && GateIsBoolean(b)
    ensures Holds(a, g, v) <==> Holds(b, g, v)
  {
  }

  ghost function WithGate(gates: Gates, id: GateId, op: Op, f0: GateId, f1: GateId): (gates': Gates)
    requires id !in gates && f0 in gates && f1 in gates
  {
    var created := gates[id := Gate(op, 1, 0, [Wire(0, 0), Wire(0, 0)], [])];
    var half := Connected(created, f0, 0, Wire(id, 0));
    HalfConnected(gates, id, op, f0);
    Connected(half, f1, 0, Wire(id, 1))
  }

  lemma HalfConnected(gates: Gates, id: GateId, op: Op, f0: GateId)
    requires id !in gates && f0 in gates
    ensures var created := gates[id := Gate(op, 1, 0, [Wire(0, 0), Wire(0, 0)], [])];
            var half := Connected(created, f0, 0, Wire(id, 0));
            half.Keys == gates.Keys + {id} && half[id].fanins == [Wire(f0, 0), Wire(0, 0)] && half[id].op == op
            && half[id].fanouts == [] && half[id].width == 1
            && forall g | g in gates ::
                 SameGate(gates[g], half[g])
                 && half[g].fanouts == gates[g].fanouts + if g == f0 then [Fanout(0, Wire(id, 0))] else []
  {
    var created := gates[id := Gate(op, 1, 0, [Wire(0, 0), Wire(0, 0)], [])];
    forall g | g in created
      ensures var half := Connected(created, f0, 0, Wire(id, 0));
              && half.Keys == created.Keys && half[g].op == created[g].op && half[g].width == created[g].width
              && half[g].value == created[g].value
              && half[g].fanins == (if g == id then created[g].fanins[0 := Wire(f0, 0)] else created[g].fanins)
              && half[g].fanouts == created[g].fanouts + (if g == f0 then [Fanout(0, Wire(id, 0))] else [])
    {
      ConnectedAt(created, f0, 0, Wire(id, 0), g);
    }
  }

  /** The new gate reads f0 and f1, who know it, and nothing else has changed. */
  lemma WithGateAt(gates: Gates, id: GateId, op: Op, f0: GateId, f1: GateId)
    requires id !in gates && f0 in gates && f1 in gates
    ensures var gates' := WithGate(gates, id, op, f0, f1);
            && gates'.Keys == gates.Keys + {id} && gates'[id].op == op && gates'[id].width == 1
            && gates'[id].fanins == [Wire(f0, 0), Wire(f1, 0)] && gates'[id].fanouts == []
            && forall g | g in gates ::
                 SameGate(gates[g], gates'[g])
                 && gates'[g].fanouts == gates[g].fanouts + (if g == f0 then [Fanout(0, Wire(id, 0))] else [])
                                         + (if g == f1 then [Fanout(0, Wire(id, 1))] else [])
  {
    HalfConnected(gates, id, op, f0);
    var created := gates[id := Gate(op, 1, 0, [Wire(0, 0), Wire(0, 0)], [])];
    var half := Connected(created, f0, 0, Wire(id, 0));
    hide Connected;
    var gates' := Connected(half, f1, 0, Wire(id, 1));
    forall g | g in half
      ensures && gates'.Keys == half.Keys && SameData(half[g], gates'[g])
              && gates'[g].fanins == (if g == id then half[g].fanins[1 := Wire(f1, 0)] else half[g].fanins)
              && gates'[g].fanouts == half[g].fanouts + (if g == f1 then [Fanout(0, Wire(id, 1))] else [])
    {
      ConnectedAt(half, f1, 0, Wire(id, 1), g);
    }
  }

  ghost predicate SameData(a: Gate, b: Gate) { a.op == b.op && a.width == b.width && a.value == b.value }

  lemma WithGateIsBoolean(gates: Gates, id: GateId, op: Op, f0: GateId, f1: GateId)
    requires IsBoolean(gates) && id !in gates && f0 in gates && f1 in gates && IsCascadeOp(op)
    requires gates[f0].op != OUTPUT && gates[f1].op != OUTPUT
    ensures IsBoolean(WithGate(gates, id, op, f0, f1)) && Grown(gates, WithGate(gates, id, op, f0, f1))
  {
    WithGateAt(gates, id, op, f0, f1);
    var gates' := WithGate(gates, id, op, f0, f1);
    hide WithGate, Mirrored;
    forall g | g in gates'
      ensures GateIsBoolean(gates'[g])
    {
      assert g in gates ==> GateIsBoolean(gates[g]);
    }
    WithGateIsMirrored(gates, gates', id, f0, f1);
  }

  lemma WithGateIsMirrored(gates: Gates, gates': Gates, id: GateId, f0: GateId, f1: GateId)
    requires Mirrored(gates) && id !in gates && f0 in gates && f1 in gates
    requires gates'.Keys == gates.Keys + {id} && gates'[id].fanins == [Wire(f0, 0), Wire(f1, 0)] && gates'[id].fanouts == []
    requires forall g | g in gates ::
               SameGate(gates[g], gates'[g])
               && gates'[g].fanouts == gates[g].fanouts + (if g == f0 then [Fanout(0, Wire(id, 0))] else [])
                                       + (if g == f1 then [Fanout(0, Wire(id, 1))] else [])
    ensures Mirrored(gates')
  {
    forall g, i: nat | g in gates' && i < |gates'[g].fanins|
      ensures FaninMirrored(gates', g, i)
    {
      if g != id {
        assert FaninMirrored(gates, g, i);
      }
    }
    forall g, i: nat | g in gates' && i < |gates'[g].fanouts|
      ensures FanoutMirrored(gates', g, i)
    {
      if i < |gates[g].fanouts| {
        assert FanoutMirrored(gates, g, i);
      }
    }
    forall g | g in gates'
      ensures NoDuplicates(gates'[g].fanouts)
    {
      if g != id {
        assert NoDuplicates(gates[g].fanouts);
        forall i: nat | i < |gates[g].fanouts|
          ensures gates[g].fanouts[i].target.gate != id
        {
          assert FanoutMirrored(gates, g, i);
        }
      }
    }
  }

  // ----- depths -----

  ghost predicate DepthAtMost(gates: Gates, x: GateId, d: int) {
    forall p | StartsAt(gates, p, x) :: |p| <= d + 1
  }

  /** No path against the wires leads from x to g. */
  ghost predicate Independent(gates: Gates, x: GateId, g: GateId) {
    forall p | StartsAt(gates, p, x) :: g !in p
  }

  /** z combines f0 and f1, in either order. */
  ghost predicate Combines(gates: Gates, z: GateId, op: Op, f0: GateId, f1: GateId) {
    && z in gates && gates[z].op == op && |gates[z].fanins| == 2
    && ((gates[z].fanins[0].gate == f0 && gates[z].fanins[1].gate == f1)
        || (gates[z].fanins[0].gate == f1 && gates[z].fanins[1].gate == f0))
  }

  lemma PathFromCombination(gates: Gates, z: GateId, op: Op, f0: GateId, f1: GateId, p: seq<GateId>)
    requires Combines(gates, z, op, f0, f1) && StartsAt(gates, p, z) && |p| > 1
    ensures StartsAt(gates, p[1..], f0) || StartsAt(gates, p[1..], f1)
  {
    assert IsFanin(gates, p[0], p[0 + 1]);
    PathPart(gates, p, 1, |p|);
  }

  lemma CombinationDepth(gates: Gates, z: GateId, op: Op, f0: GateId, f1: GateId, d: int)
    requires Combines(gates, z, op, f0, f1) && DepthAtMost(gates, f0, d) && DepthAtMost(gates, f1, d) && 0 <= d
    ensures DepthAtMost(gates, z, d + 1)
  {
    hide StartsAt, Combines;
    forall p | StartsAt(gates, p, z)
      ensures |p| <= d + 2
    {
      if |p| > 1 {
        PathFromCombination(gates, z, op, f0, f1, p);
      }
    }
  }

  lemma CombinationIndependent(gates: Gates, z: GateId, op: Op, f0: GateId, f1: GateId, g: GateId)
    requires Combines(gates, z, op, f0, f1) && Independent(gates, f0, g) && Independent(gates, f1, g) && z != g
    ensures Independent(gates, z, g)
  {
    hide Combines;
    forall p | StartsAt(gates, p, z)
      ensures g !in p
    {
      if |p| > 1 {
        PathFromCombination(gates, z, op, f0, f1, p);
        assert p == [p[0]] + p[1..];
      }
    }
  }

  lemma {:induction false} PathBeforeGrowth(gates: Gates, gates': Gates, p: seq<GateId>)
    requires HasFanins(gates) && Grown(gates, gates') && IsBackPath(gates', p) && p[0] in gates
    ensures IsBackPath(gates, p)
    decreases |p|
  {
    if |p| > 1 {
      assert IsFanin(gates', p[0], p[0 + 1]);
      assert SameGate(gates[p[0]], gates'[p[0]]);
      assert IsFanin(gates, p[0], p[1]);
      PathPart(gates', p, 1, |p|);
      PathBeforeGrowth(gates, gates', p[1..]);
      assert IsBackPath(gates, [p[0]]);
      PathAppend(gates, [p[0]], p[1..]);
      assert p == [p[0]] + p[1..];
    }
  }

  lemma GrownKeepsCone(gates: Gates, gates': Gates, x: GateId, d: int, g: GateId)
    requires IsBoolean(gates) && Grown(gates, gates') && x in gates
    requires DepthAtMost(gates, x, d) && Independent(gates, x, g)
    ensures DepthAtMost(gates', x, d) && Independent(gates', x, g)
  {
    BooleanHasFanins(gates);
    hide IsBoolean, HasFanins, Grown;
    forall p | StartsAt(gates', p, x)
      ensures |p| <= d + 1 && g !in p
    {
      PathBeforeGrowth(gates, gates', p);
      assert StartsAt(gates, p, x);
    }
  }

  /** Below g nothing depends on g. */
  lemma {:induction false} RanksFall(gates: Gates, rank: GateId -> nat, p: seq<GateId>, i: nat)
    requires Ranked(gates, rank) && IsBackPath(gates, p) && i < |p|
    ensures rank(p[i]) <= rank(p[0])
    decreases i
  {
    if i > 0 {
      RanksFall(gates, rank, p, i - 1);
      assert IsFanin(gates, p[i - 1], p[i - 1 + 1]);
      var j: nat :| j < |gates[p[i - 1]].fanins| && gates[p[i - 1]].fanins[j].gate == p[i];
      FaninOf(gates, rank, p[i - 1], j);
    }
  }

  lemma LowerIsIndependent(gates: Gates, rank: GateId -> nat, x: GateId, g: GateId)
    requires Ranked(gates, rank) && rank(x) < rank(g)
    ensures Independent(gates, x, g)
  {
    forall p | StartsAt(gates, p, x)
      ensures g !in p
    {
      forall i | 0 <= i < |p|
        ensures p[i] != g
      {
        RanksFall(gates, rank, p, i);
      }
    }
  }

  /** Moving g's fanouts to a gate that does not depend on g makes no cycle: a numbering that shows it. */
  lemma RankAround(gates: Gates, rank: GateId -> nat, g: GateId, root: GateId) returns (rank': GateId -> nat)
    requires Ranked(gates, rank) && g in gates && root in gates && Independent(gates, root, g)
    ensures Ranked(gates, rank') && rank'(root) <= rank'(g)
  {
    rank' := (x: GateId) => if Independent(gates, x, g) then rank(x) else rank(root) + rank(x);
    assert !Independent(gates, g, g) by {
      assert StartsAt(gates, [g], g);
    }
    forall h, w | h in gates && w in gates[h].fanins
      ensures w.gate in gates && rank'(w.gate) < rank'(h)
    {
      var i: nat :| i < |gates[h].fanins| && gates[h].fanins[i] == w;
      FaninOf(gates, rank, h, i);
      if Independent(gates, h, g) {
        FaninIndependent(gates, h, w.gate, g);
      }
    }
  }

  lemma FaninIndependent(gates: Gates, h: GateId, f: GateId, g: GateId)
    requires Independent(gates, h, g) && IsFanin(gates, h, f)
    ensures Independent(gates, f, g)
  {
    forall p | StartsAt(gates, p, f)
      ensures g !in p
    {
      assert IsBackPath(gates, [h]);
      PathAppend(gates, [h], p);
      assert StartsAt(gates, [h] + p, h);
    }
  }

  lemma NewGateRanked(gates: Gates, gates': Gates, rank: GateId -> nat, id: GateId, op: Op, f0: GateId, f1: GateId)
    returns (rank': GateId -> nat)
    requires IsBoolean(gates) && Ranked(gates, rank) && id !in gates && f0 in gates && f1 in gates
    requires gates'.Keys == gates.Keys + {id} && gates'[id].fanins == [Wire(f0, 0), Wire(f1, 0)] && Grown(gates, gates')
    ensures Ranked(gates', rank') && forall x | x in gates :: rank'(x) == rank(x)
  {
    rank' := (x: GateId) => if x == id then 1 + rank(f0) + rank(f1) else rank(x);
    forall h, w | h in gates' && w in gates'[h].fanins
      ensures w.gate in gates' && rank'(w.gate) < rank'(h)
    {
      if h != id {
        assert SameGate(gates[h], gates'[h]);
        var i: nat :| i < |gates[h].fanins| && gates[h].fanins[i] == w;
        FaninOf(gates, rank, h, i);
      }
    }
  }

  // ----- the cascade -----

  /** The chain of gates that was followed: each reads the next. */
  ghost predicate IsChain(gates: Gates, op: Op, chain: seq<GateId>) {
    && chain != [] && (forall k | 0 <= k < |chain| :: chain[k] in gates && gates[chain[k]].op == op)
    && forall k: nat | k < |chain| - 1 :: ReadsNext(gates, chain, k)
  }

  ghost predicate ReadsNext(gates: Gates, chain: seq<GateId>, k: nat) {
    k + 1 < |chain| && IsFanin(gates, chain[k], chain[k + 1])
  }

  /** The first t gates of the chain are not in the list. */
  ghost predicate Avoids(list: seq<GateId>, chain: seq<GateId>, t: int) {
    forall k | 0 <= k < |chain| && k < t :: chain[k] !in list
  }

  /** Gates that may be combined: sources of values, not too deep, and independent of g. */
  ghost predicate ListOk(gates: Gates, list: seq<GateId>, d: int, g: GateId) {
    forall x | x in list :: x in gates && gates[x].op != OUTPUT && DepthAtMost(gates, x, d) && Independent(gates, x, g)
  }

  lemma ListGrown(gates: Gates, gates': Gates, list: seq<GateId>, d: int, g: GateId)
    requires IsBoolean(gates) && Grown(gates, gates') && ListOk(gates, list, d, g)
    ensures ListOk(gates', list, d, g)
  {
    hide IsBoolean, DepthAtMost, Independent;
    forall x | x in list
      ensures x in gates' && gates'[x].op != OUTPUT && DepthAtMost(gates', x, d) && Independent(gates', x, g)
    {
      assert SameGate(gates[x], gates'[x]);
      GrownKeepsCone(gates, gates', x, d, g);
    }
  }

  lemma ChainGrown(gates: Gates, gates': Gates, op: Op, chain: seq<GateId>)
    requires IsChain(gates, op, chain) && Grown(gates, gates')
    ensures IsChain(gates', op, chain)
  {
    forall k: nat | k < |chain| - 1
      ensures ReadsNext(gates', chain, k)
    {
      assert ReadsNext(gates, chain, k);
      assert SameGate(gates[chain[k]], gates'[chain[k]]);
      assert chain[k + 1] in gates;
    }
    forall k | 0 <= k < |chain|
      ensures chain[k] in gates' && gates'[chain[k]].op == op
    {
      assert SameGate(gates[chain[k]], gates'[chain[k]]);
    }
  }

  /** A combination of gates of the list, or of one of them with a constant, is none of the first gates of the chain. */
  lemma CombinationAvoids(gates: Gates, op: Op, chain: seq<GateId>, list: seq<GateId>, t: int, z: GateId, x: GateId, y: GateId)
    requires IsCascadeOp(op) && IsChain(gates, op, chain) && Avoids(list, chain, t) && t <= |chain|
    requires Combines(gates, z, op, x, y) && y in list && (x in list || (x in gates && gates[x].op != op))
    ensures forall k: nat | k < |chain| && k < t - 1 :: chain[k] != z
  {
    forall k: nat | k < |chain| && k < t - 1
      ensures chain[k] != z
    {
      assert ReadsNext(gates, chain, k);
      assert chain[k + 1] !in list;
    }
  }

  // ----- what the steps mean -----

  /** The constant gates, as ListsOk has them. */
  ghost predicate ConstantsOk(gates: Gates, l: Lists) {
    && IsBoolean(gates) && l.one in gates && gates[l.one].op == ONE
    && l.zero in gates && gates[l.zero].op == NOT && gates[l.zero].fanins[0].gate == l.one
  }

  function NeutralGate(op: Op, l: Lists): (g: GateId) { if op == AND then l.one else l.zero }

  lemma NeutralFacts(gates: Gates, l: Lists, op: Op, g: GateId)
    requires ConstantsOk(gates, l) && IsCascadeOp(op) && g in gates && gates[g].op == op
    ensures var n := NeutralGate(op, l);
            && n in gates && gates[n].op != op && gates[n].op != OUTPUT
            && DepthAtMost(gates, n, 1) && Independent(gates, n, g)
    ensures forall v: Valuation | Consistent(gates, v) :: v(NeutralGate(op, l)) == Neutral(op)
  {
    var n := NeutralGate(op, l);
    assert GateIsBoolean(gates[l.one]) && GateIsBoolean(gates[l.zero]);
    hide Mirrored;
    forall p | StartsAt(gates, p, n)
      ensures |p| <= 2 && g !in p
    {
      assert |p| > 1 ==> IsFanin(gates, p[0], p[0 + 1]);
      assert |p| > 2 ==> IsFanin(gates, p[1], p[1 + 1]);
    }
    forall v: Valuation | Consistent(gates, v)
      ensures v(n) == Neutral(op)
    {
      GateOf(gates, v, l.one);
      GateOf(gates, v, l.zero);
    }
  }

  lemma CombinationValue(gates: Gates, z: GateId, op: Op, f0: GateId, f1: GateId, v: Valuation)
    requires IsBoolean(gates) && Consistent(gates, v) && IsCascadeOp(op) && Combines(gates, z, op, f0, f1)
    ensures v(z) == Combine(op, v(f0), v(f1))
  {
    GateOf(gates, v, z);
  }

  /** What is left to pair up, after the new gates, is what one round makes of the list. */
  ghost predicate Pairs(gates: Gates, op: Op, list: seq<GateId>, newList: seq<GateId>, rest: seq<GateId>)
    requires IsBoolean(gates) && IsCascadeOp(op)
  {
    forall v: Valuation | Consistent(gates, v) ::
      PairUp(op, ValuesOf(v, list)) == ValuesOf(v, newList) + PairUp(op, ValuesOf(v, rest))
  }

  lemma PairsStep(gates: Gates, gates': Gates, op: Op, list: seq<GateId>, newList: seq<GateId>, rest: seq<GateId>,
                  z: GateId, x: GateId, rest': seq<GateId>)
    requires IsBoolean(gates) && IsBoolean(gates') && IsCascadeOp(op) && Grown(gates, gates')
    requires Pairs(gates, op, list, newList, rest) && rest != [] && Combines(gates', z, op, x, rest[0])
    requires if |rest| == 1 then rest' == [] && (forall v: Valuation | Consistent(gates', v) :: v(x) == Neutral(op))
             else x == rest[1] && rest' == rest[2..]
    ensures Pairs(gates', op, list, newList + [z], rest')
  {
    hide IsBoolean, Grown, Consistent, Combines, Pairs, PairUp, ValuesOf;
    forall v: Valuation | Consistent(gates', v)
      ensures PairUp(op, ValuesOf(v, list)) == ValuesOf(v, newList + [z]) + PairUp(op, ValuesOf(v, rest'))
    {
      GrownConsistent(gates, gates', v);
      PairsAt(gates, op, list, newList, rest, v);
      CombinationValue(gates', z, op, x, rest[0], v);
      OneMorePair(op, v, newList, rest, z, x, rest');
    }
    PairsFrom(gates', op, list, newList + [z], rest');
  }

  lemma OneMorePair(op: Op, v: Valuation, newList: seq<GateId>, rest: seq<GateId>, z: GateId, x: GateId, rest': seq<GateId>)
    requires IsCascadeOp(op) && rest != [] && v(z) == Combine(op, v(x), v(rest[0]))
    requires if |rest| == 1 then rest' == [] && v(x) == Neutral(op) else x == rest[1] && rest' == rest[2..]
    ensures ValuesOf(v, newList) + PairUp(op, ValuesOf(v, rest)) == ValuesOf(v, newList + [z]) + PairUp(op, ValuesOf(v, rest'))
  {
    assert ValuesOf(v, newList + [z]) == ValuesOf(v, newList) + [v(z)];
    if |rest| > 1 {
      assert ValuesOf(v, rest)[2..] == ValuesOf(v, rest');
    }
  }

  lemma PairsAt(gates: Gates, op: Op, list: seq<GateId>, newList: seq<GateId>, rest: seq<GateId>, v: Valuation)
    requires IsBoolean(gates) && IsCascadeOp(op) && Pairs(gates, op, list, newList, rest) && Consistent(gates, v)
    ensures PairUp(op, ValuesOf(v, list)) == ValuesOf(v, newList) + PairUp(op, ValuesOf(v, rest))
  {
  }

  lemma PairsFrom(gates: Gates, op: Op, list: seq<GateId>, newList: seq<GateId>, rest: seq<GateId>)
    requires IsBoolean(gates) && IsCascadeOp(op)
    requires forall v: Valuation | Consistent(gates, v) ::
               PairUp(op, ValuesOf(v, list)) == ValuesOf(v, newList) + PairUp(op, ValuesOf(v, rest))
    ensures Pairs(gates, op, list, newList, rest)
  {
  }

  /** The list folds to the same value as the operands did. */
  ghost predicate SameFold(gates: Gates, op: Op, operands: seq<GateId>, list: seq<GateId>)
    requires IsBoolean(gates) && IsCascadeOp(op)
  {
    forall v: Valuation | Consistent(gates, v) :: Fold(op, ValuesOf(v, operands)) == Fold(op, ValuesOf(v, list))
  }

  lemma RoundKeepsFold(gates: Gates, gates': Gates, op: Op, operands: seq<GateId>, list: seq<GateId>, newList: seq<GateId>)
    requires IsBoolean(gates) && IsBoolean(gates') && IsCascadeOp(op) && Grown(gates, gates')
    requires SameFold(gates, op, operands, list) && Pairs(gates', op, list, newList, [])
    ensures SameFold(gates', op, operands, newList)
  {
    hide IsBoolean, Grown, Consistent, Fold, PairUp;
    forall v: Valuation | Consistent(gates', v)
      ensures Fold(op, ValuesOf(v, operands)) == Fold(op, ValuesOf(v, newList))
    {
      GrownConsistent(gates, gates', v);
      PairsAt(gates', op, list, newList, [], v);
      PairUpKeepsFold(op, ValuesOf(v, list));
      assert Fold(op, ValuesOf(v, operands)) == Fold(op, ValuesOf(v, list));
      NothingToPair(op, v);
      assert PairUp(op, ValuesOf(v, list)) == ValuesOf(v, newList);
    }
  }

  lemma NothingToPair(op: Op, v: Valuation)
    requires IsCascadeOp(op)
    ensures ValuesOf(v, []) == [] && PairUp(op, ValuesOf(v, [])) == []
  {
  }

  lemma RoundsAreFew(n: nat)
    requires n >= 4
    ensures Rounds(n) + 2 <= n
    decreases n
  {
    RoundsIsLogarithm((n + 1) / 2);
    if n >= 8 {
      RoundsAreFew((n + 1) / 2);
    }
  }

  class Structurizer {
    const circuit: SimpleCircuit
    var nextId: nat
    ghost var rank: GateId -> nat

    constructor (circuit: SimpleCircuit, nextId: nat, ghost rank: GateId -> nat)
      requires ConstantsOk(circuit.gates, circuit.lists) && Ranked(circuit.gates, rank)
      requires forall g | g in circuit.gates :: g < nextId
      ensures Valid() && this.circuit == circuit && this.nextId == nextId && this.rank == rank
    {
      this.circuit := circuit;
      this.nextId := nextId;
      this.rank := rank;
    }

    ghost predicate Valid()
      reads this, circuit
    {
      && ConstantsOk(circuit.gates, circuit.lists) && Ranked(circuit.gates, rank)
      && forall g | g in circuit.gates :: g < nextId
    }

    /** has_this_fanout */
    method FindGate(f0: GateId, f1: GateId, op: Op) returns (found: bool, z: GateId)
      requires Valid() && f0 in circuit.gates && IsCascadeOp(op)
      ensures found ==> Combines(circuit.gates, z, op, f0, f1)
    {
      hide IsBoolean, Ranked;
      var fanouts := circuit.gates[f0].fanouts;
      for i := 0 to |fanouts| {
        FanoutTarget(circuit.gates, f0, i);
        z := fanouts[i].target.gate;
        var t := circuit.gates[z];
        if t.op == op && ((t.fanins[0].gate == f0 && t.fanins[1].gate == f1)
                          || (t.fanins[0].gate == f1 && t.fanins[1].gate == f0)) {
          return true, z;
        }
      }
      return false, f0;
    }

    /** create_this_gate: a gate that is there already is used again. */
    method CreateThisGate(f0: GateId, f1: GateId, op: Op) returns (z: GateId)
      requires Valid() && f0 in circuit.gates && f1 in circuit.gates && IsCascadeOp(op)
      requires circuit.gates[f0].op != OUTPUT && circuit.gates[f1].op != OUTPUT
      modifies this`nextId, this`rank, circuit
      ensures Valid() && Grown(old(circuit.gates), circuit.gates) && Combines(circuit.gates, z, op, f0, f1)
    {
      hide IsBoolean, Ranked, Grown, Combines;
      NothingGrown(circuit.gates);
      var found;
      found, z := FindGate(f0, f1, op);
      if !found {
        z := NewGate(f0, f1, op);
      }
    }

    method NewGate(f0: GateId, f1: GateId, op: Op) returns (z: GateId)
      requires Valid() && f0 in circuit.gates && f1 in circuit.gates && IsCascadeOp(op)
      requires circuit.gates[f0].op != OUTPUT && circuit.gates[f1].op != OUTPUT
      modifies this`nextId, this`rank, circuit
      ensures Valid() && Grown(old(circuit.gates), circuit.gates) && Combines(circuit.gates, z, op, f0, f1)
    {
      hide IsBoolean, Ranked, Connected, Grown, ConstantsOk, Combines, WithGate;
      z := nextId;
      ghost var gates := circuit.gates;
      rank := NewGateFacts(gates, circuit.lists, rank, z, op, f0, f1);
      circuit.gates := circuit.gates[z := Gate(op, 1, 0, [Wire(0, 0), Wire(0, 0)], [])];
      circuit.AddFanout(f0, 0, Wire(z, 0));
      circuit.AddFanout(f1, 0, Wire(z, 1));
      nextId := nextId + 1;
    }

    /** The inner loop: one round of pairs. */
    method PairRound(list: seq<GateId>, op: Op, g: GateId, ghost d: int, ghost chain: seq<GateId>, ghost t: int)
      returns (newList: seq<GateId>)
      requires Valid() && IsCascadeOp(op) && 1 <= d && g in circuit.gates && circuit.gates[g].op == op
      requires ListOk(circuit.gates, list, d, g) && IsChain(circuit.gates, op, chain) && chain[0] == g
      requires Avoids(list, chain, t) && 2 <= t <= |chain|
      modifies this`nextId, this`rank, circuit
      ensures Valid() && Grown(old(circuit.gates), circuit.gates) && |newList| == (|list| + 1) / 2
      ensures ListOk(circuit.gates, newList, d + 1, g) && Avoids(newList, chain, t - 1)
      ensures Pairs(circuit.gates, op, list, newList, [])
    {
      hide IsBoolean, Ranked, Grown, Combines, ListOk, IsChain, Avoids, Pairs, ConstantsOk;
      newList := [];
      var rest := list;
      NothingGrown(circuit.gates);
      assert IsBoolean(circuit.gates) by { ConstantsAreBoolean(circuit.gates, circuit.lists); }
      PairsAtFirst(circuit.gates, op, list, d, g, chain, t);
      while rest != []
        invariant Valid() && IsBoolean(circuit.gates) && Grown(old(circuit.gates), circuit.gates)
        invariant IsChain(circuit.gates, op, chain) && g in circuit.gates && circuit.gates[g].op == op
        invariant ListOk(circuit.gates, list, d, g) && ListOk(circuit.gates, newList, d + 1, g)
        invariant Avoids(newList, chain, t - 1) && Pairs(circuit.gates, op, list, newList, rest)
        invariant forall x | x in rest :: x in list
        invariant |newList| + (|rest| + 1) / 2 == (|list| + 1) / 2
        decreases |rest|
      {
        ghost var before, pairs := circuit.gates, rest;
        var first := rest[0];
        rest := rest[1..];
        var second := NeutralGate(op, circuit.lists);
        NeutralFacts(before, circuit.lists, op, g);
        if rest != [] {
          second := rest[0];
          rest := rest[1..];
        }
        ListMembers(before, list, d, g, first);
        if |pairs| > 1 {
          ListMembers(before, list, d, g, second);
        }
        var z := CreateThisGate(second, first, op);
        ConstantsAreBoolean(circuit.gates, circuit.lists);
        GrownTransitive(old(circuit.gates), before, circuit.gates);
        ChainGrown(before, circuit.gates, op, chain);
        OnePair(before, circuit.gates, op, list, newList, z, second, first, d, g, chain, t);
        NeutralStays(before, circuit.gates, circuit.lists, op, g);
        PairsStep(before, circuit.gates, op, list, newList, pairs, z, second, rest);
        newList := newList + [z];
      }
    }

    /** The outer loop: rounds of pairs until one gate is left. */
    method BuildTree(list: seq<GateId>, op: Op, g: GateId, ghost d: int, ghost chain: seq<GateId>) returns (root: GateId)
      requires Valid() && IsCascadeOp(op) && 1 <= d && g in circuit.gates && circuit.gates[g].op == op
      requires ListOk(circuit.gates, list, d, g) && IsChain(circuit.gates, op, chain) && chain[0] == g
      requires 4 <= |list| <= |chain| + 1 && Avoids(list, chain, |chain|)
      modifies this`nextId, this`rank, circuit
      ensures Valid() && Grown(old(circuit.gates), circuit.gates) && IsBoolean(circuit.gates)
      ensures root in circuit.gates && root != g && circuit.gates[root].op != OUTPUT && Independent(circuit.gates, root, g)
      ensures DepthAtMost(circuit.gates, root, d + Rounds(|list|))
      ensures SameFold(circuit.gates, op, list, [root])
    {
      hide IsBoolean, Ranked, Grown, Combines, ListOk, IsChain, Avoids, Pairs, ConstantsOk, SameFold, Independent, DepthAtMost;
      var actList := list;
      NothingGrown(circuit.gates);
      ConstantsAreBoolean(circuit.gates, circuit.lists);
      FoldAtFirst(circuit.gates, op, list);
      RoundsIsLogarithm(|list|);
      RoundsAreFew(|list|);
      var i := 0;
      while i < |list| && |actList| != 1
        invariant Valid() && IsBoolean(circuit.gates) && Grown(old(circuit.gates), circuit.gates)
        invariant IsChain(circuit.gates, op, chain) && g in circuit.gates && circuit.gates[g].op == op
        invariant ListOk(circuit.gates, actList, d + i, g) && Avoids(actList, chain, |chain| - i)
        invariant SameFold(circuit.gates, op, list, actList)
        invariant 0 < |actList| && i + Rounds(|actList|) == Rounds(|list|)
        decreases |list| - i
      {
        ghost var before := circuit.gates;
        assert Rounds(|actList|) == 1 + Rounds((|actList| + 1) / 2);
        var newList := PairRound(actList, op, g, d + i, chain, |chain| - i);
        ConstantsAreBoolean(circuit.gates, circuit.lists);
        GrownTransitive(old(circuit.gates), before, circuit.gates);
        ChainGrown(before, circuit.gates, op, chain);
        GateGrown(before, circuit.gates, g);
        RoundKeepsFold(before, circuit.gates, op, list, actList, newList);
        actList := newList;
        i := i + 1;
      }
      assert Rounds(1) == 0;
      NoneLeft(actList);
      root := actList[0];
      assert actList == [root];
      ListMembers(circuit.gates, actList, d + i, g, root);
      RootIsNew(actList, chain, |chain| - i, g);
    }

    /** The cascade below g: the operands, and whether all of it could be taken apart. */
    method Collect(g: GateId, op: Op) returns (list: seq<GateId>, complete: bool, ghost act: GateId, ghost chain: seq<GateId>)
      requires Valid() && IsCascadeOp(op) && g in circuit.gates
      ensures IsBoolean(circuit.gates) && act in circuit.gates && Collected(circuit.gates, op, g, list, complete, act)
      ensures Cascade(list, complete, act) == Walk(circuit.gates, rank, op, g)
      ensures complete <==> SingleFanouts(circuit.gates, rank, op, g)
      ensures forall x | x in list :: x in circuit.gates && circuit.gates[x].op != OUTPUT && rank(x) < rank(g)
      ensures list != [] ==> circuit.gates[g].op == op && IsChain(circuit.gates, op, chain) && chain[0] == g
      ensures list != [] ==> |list| <= |chain| + 1 && Avoids(list, chain, |chain|)
    {
      hide IsBoolean, Ranked, IsChain, Collected, ConstantsOk, Avoids, Walk, SingleFanouts, Walking, Combines;
      ghost var gates := circuit.gates;
      ConstantsAreBoolean(gates, circuit.lists);
      var cur := g;
      list, complete, chain := [], false, [g];
      WalkingStarts(gates, rank, op, g);
      WalkIsComplete(gates, rank, op, g);
      while circuit.gates[cur].op == op && |circuit.gates[cur].fanouts| == 1
        invariant circuit.gates == gates && cur in gates && IsBoolean(gates)
        invariant Walking(gates, rank, op, g, list, chain, cur)
        decreases rank(cur)
      {
        CascadeGate(gates, rank, cur);
        var a, b := circuit.gates[cur].fanins[0].gate, circuit.gates[cur].fanins[1].gate;
        BothCombine(gates, cur, op, a, b);
        if circuit.gates[a].op == op && circuit.gates[b].op != op {
          WalkingOn(gates, rank, op, g, list, chain, cur, b, a);
          list := list + [b];
          chain := chain + [a];
          cur := a;
        } else if circuit.gates[a].op != op && circuit.gates[b].op == op {
          WalkingOn(gates, rank, op, g, list, chain, cur, a, b);
          list := list + [a];
          chain := chain + [b];
          cur := b;
        } else {
          WalkingDone(gates, rank, op, g, list, chain, cur, a, b);
          list := list + [a] + [b];
          complete := true;
          act := cur;
          return;
        }
      }
      WalkingBreaksOff(gates, rank, op, g, list, chain, cur);
      act := cur;
    }

    /**
     Replaces g by a balanced tree over the operands of its cascade. The tree computes the fold of the
     operands, at most Rounds(n) levels above them. That is g, unless the walk met a gate of the
     cascade with other fanouts: then that gate is missing from the tree.
     */
    method StructuralMinimize(g: GateId, op: Op)
      returns (changed: bool, ghost list: seq<GateId>, ghost complete: bool, ghost act: GateId,
               ghost root: GateId, ghost grown: Gates, ghost d: nat)
      requires Valid() && IsCascadeOp(op) && g in circuit.gates
      modifies this`nextId, this`rank, circuit
      ensures Valid() && (!changed ==> circuit.gates == old(circuit.gates))
      ensures IsBoolean(old(circuit.gates)) && Collected(old(circuit.gates), op, g, list, complete, act)
      ensures Ranked(old(circuit.gates), old(rank)) && (complete <==> SingleFanouts(old(circuit.gates), old(rank), op, g))
      ensures changed <==> 3 < |list|
      ensures changed ==> Balanced(old(circuit.gates), grown, circuit.gates, op, g, list, root)
      ensures Cascade(list, complete, act) == Walk(old(circuit.gates), old(rank), op, g)
      ensures act in old(circuit.gates) && forall x | x in list :: x in old(circuit.gates)
      ensures changed ==> IsOperandDepth(old(circuit.gates), list, d) && DepthAtMost(grown, root, d + Rounds(|list|))
      ensures changed ==> DepthAtMost(circuit.gates, root, d + Rounds(|list|)) && Ranked(grown, rank)
      ensures changed && EqualGates(grown, g, root) ==> SameMeaning(grown, circuit.gates)
      ensures changed && complete ==> SameMeaning(grown, circuit.gates)
    {
      hide IsBoolean, Ranked, IsChain, Collected, ConstantsOk, Avoids, Balanced, IsOperandDepth, SameMeaning, Grown, SameFold;
      hide DepthAtMost, Independent, IsReplaced, SingleFanouts, ListOk, Rounds, EqualGates, Walk;
      ghost var before, rank0 := circuit.gates, rank;
      var operands, whole;
      ghost var chain;
      operands, whole, act, chain := Collect(g, op);
      list, complete, root, grown, d := operands, whole, g, before, 1;
      if |operands| <= 3 {
        return false, list, complete, act, root, grown, d;
      }
      d := OperandDepth(before, rank0, g, list);
      root, grown := ReplaceByTree(g, op, operands, whole, act, chain, d);
      return true, list, complete, act, root, grown, d;
    }

    /** The tree is built beside the cascade before it takes over. */
    method ReplaceByTree(g: GateId, op: Op, list: seq<GateId>, ghost complete: bool, ghost act: GateId,
                         ghost chain: seq<GateId>, ghost d: nat)
      returns (ghost root: GateId, ghost grown: Gates)
      requires Valid() && IsCascadeOp(op) && 1 <= d && g in circuit.gates && circuit.gates[g].op == op
      requires ListOk(circuit.gates, list, d, g) && IsChain(circuit.gates, op, chain) && chain[0] == g
      requires 4 <= |list| <= |chain| + 1 && Avoids(list, chain, |chain|)
      requires IsBoolean(circuit.gates) && Collected(circuit.gates, op, g, list, complete, act)
      modifies this`nextId, this`rank, circuit
      ensures Valid() && Balanced(old(circuit.gates), grown, circuit.gates, op, g, list, root)
      ensures DepthAtMost(grown, root, d + Rounds(|list|)) && DepthAtMost(circuit.gates, root, d + Rounds(|list|))
      ensures Ranked(grown, rank)
      ensures EqualGates(grown, g, root) ==> SameMeaning(grown, circuit.gates)
      ensures complete ==> SameMeaning(grown, circuit.gates)
    {
      hide IsBoolean, Ranked, IsChain, Collected, ConstantsOk, Avoids, Balanced, SameMeaning, Grown, SameFold;
      hide DepthAtMost, Independent, IsReplaced, ListOk, Rounds, EqualGates;
      ghost var before := circuit.gates;
      var top := BuildTree(list, op, g, d, chain);
      root, grown := top, circuit.gates;
      GateGrown(before, grown, g);
      ghost var rank' := RankAround(grown, rank, g, root);
      BothAreGates(grown, g, root);
      circuit.ReplaceBy(g, top);
      TreeTakesOver(before, grown, circuit.gates, circuit.lists, rank', op, g, list, complete, act, root);
      ConeStays(grown, circuit.gates, g, root, d + Rounds(|list|));
      rank := rank';
    }
  }

  /** A path that cannot reach g is not changed when g's fanouts move. */
  lemma {:induction false} PathBeforeReplacing(gates: Gates, gates': Gates, g: GateId, root: GateId, x: GateId, p: seq<GateId>)
    requires g in gates && root in gates && g != root && IsReplaced(gates, gates', g, root)
    requires HasFanins(gates) && x in gates && Independent(gates, x, g) && StartsAt(gates', p, x)
    ensures StartsAt(gates, p, x)
    decreases |p|
  {
    assert StartsAt(gates, [x], x);
    if |p| > 1 {
      assert IsFanin(gates', p[0], p[0 + 1]);
      FaninBeforeReplacing(gates, gates', g, root, x, p[1]);
      FaninIndependent(gates, x, p[1], g);
      PathPart(gates', p, 1, |p|);
      PathBeforeReplacing(gates, gates', g, root, p[1], p[1..]);
      PathAppend(gates, [x], p[1..]);
      assert p == [x] + p[1..];
    }
  }

  lemma FaninBeforeReplacing(gates: Gates, gates': Gates, g: GateId, root: GateId, x: GateId, f: GateId)
    requires g in gates && root in gates && g != root && IsReplaced(gates, gates', g, root)
    requires HasFanins(gates) && x in gates && Independent(gates, x, g) && IsFanin(gates', x, f)
    ensures IsFanin(gates, x, f)
  {
    assert ReplacedAt(gates, gates', g, root, x);
    var i: nat :| i < |gates'[x].fanins| && gates'[x].fanins[i].gate == f;
    if gates[x].fanins[i].gate == g {
      assert IsBackPath(gates, [x]) && IsBackPath(gates, [g]) && IsFanin(gates, x, g);
      PathAppend(gates, [x], [g]);
      assert StartsAt(gates, [x] + [g], x) && g in [x] + [g];
      assert false;
    }
  }

  lemma ConeStays(gates: Gates, gates': Gates, g: GateId, root: GateId, d: int)
    requires g in gates && root in gates && g != root && IsReplaced(gates, gates', g, root)
    requires IsBoolean(gates) && Independent(gates, root, g) && DepthAtMost(gates, root, d)
    ensures DepthAtMost(gates', root, d)
  {
    BooleanHasFanins(gates);
    hide IsBoolean, HasFanins, IsReplaced, Independent, StartsAt;
    forall p | StartsAt(gates', p, root)
      ensures |p| <= d + 1
    {
      PathBeforeReplacing(gates, gates', g, root, root, p);
    }
  }

  lemma TreeTakesOver(before: Gates, grown: Gates, after: Gates, l: Lists, rank: GateId -> nat, op: Op, g: GateId,
                      list: seq<GateId>, complete: bool, act: GateId, root: GateId)
    requires IsCascadeOp(op) && IsBoolean(before) && IsBoolean(grown) && Grown(before, grown) && ConstantsOk(grown, l)
    requires g in grown && root in grown && root != g && IsReplaced(grown, after, g, root) && grown[root].op != OUTPUT
    requires Ranked(grown, rank) && rank(root) <= rank(g) && grown[g].op == op
    requires SameFold(grown, op, list, [root]) && Collected(before, op, g, list, complete, act)
    ensures Balanced(before, grown, after, op, g, list, root) && ConstantsOk(after, l) && Ranked(after, rank)
    ensures after.Keys == grown.Keys
    ensures EqualGates(grown, g, root) ==> SameMeaning(grown, after)
    ensures complete ==> SameMeaning(grown, after)
  {
    hide IsBoolean, Ranked, Collected, ConstantsOk, Balanced, SameMeaning, Grown, SameFold, IsReplaced, EqualGates;
    ReplacedIsBoolean(grown, after, g, root);
    ReplacedIsRanked(grown, after, g, root, rank);
    ReplacedConstants(grown, after, l, g, root, op);
    if complete {
      WholeCascade(before, grown, op, g, list, act, root);
    }
    if EqualGates(grown, g, root) {
      MergeKeepsMeaning(grown, after, g, root, rank);
    }
    MakeBalanced(before, grown, after, op, g, list, root);
  }

  lemma FoldAtFirst(gates: Gates, op: Op, list: seq<GateId>)
    requires IsBoolean(gates) && IsCascadeOp(op)
    ensures SameFold(gates, op, list, list)
  {
  }

  lemma GateGrown(gates: Gates, gates': Gates, g: GateId)
    requires Grown(gates, gates') && g in gates
    ensures g in gates' && gates'[g].op == gates[g].op
  {
    assert SameGate(gates[g], gates'[g]);
  }

  lemma NoneLeft(list: seq<GateId>)
    requires |list| == 1
    ensures list == [list[0]] && list[0] in list
  {
  }

  lemma RootIsNew(list: seq<GateId>, chain: seq<GateId>, t: int, g: GateId)
    requires |list| == 1 && Avoids(list, chain, t) && 0 < t && chain != [] && chain[0] == g
    ensures list[0] != g
  {
    assert chain[0] !in list;
  }

  /** g is the combination of the operands, or of the operands and the gate where the walk stopped. */
  ghost predicate Collected(gates: Gates, op: Op, g: GateId, list: seq<GateId>, complete: bool, act: GateId)
    requires IsBoolean(gates) && IsCascadeOp(op)
  {
    forall v: Valuation | Consistent(gates, v) ::
      v(g) == if complete then Fold(op, ValuesOf(v, list)) else Combine(op, Fold(op, ValuesOf(v, list)), v(act))
  }

  /** All gates of the cascade that can be reached have one fanout. */
  ghost predicate SingleFanouts(gates: Gates, rank: GateId -> nat, op: Op, g: GateId)
    requires IsBoolean(gates) && Ranked(gates, rank) && IsCascadeOp(op) && g in gates
    decreases rank(g)
  {
    && gates[g].op == op && |gates[g].fanouts| == 1
    && (CascadeGate(gates, rank, g);
        var a, b := gates[g].fanins[0].gate, gates[g].fanins[1].gate;
        if gates[a].op == op && gates[b].op != op then SingleFanouts(gates, rank, op, a)
        else if gates[a].op != op && gates[b].op == op then SingleFanouts(gates, rank, op, b)
        else true)
  }

  /** What the walk down a cascade finds: the operands, whether these are all, and the gate where it ends. */
  datatype Cascade = Cascade(list: seq<GateId>, complete: bool, act: GateId)

  ghost function Walk(gates: Gates, rank: GateId -> nat, op: Op, g: GateId): (c: Cascade)
    requires IsBoolean(gates) && Ranked(gates, rank) && IsCascadeOp(op) && g in gates
    decreases rank(g)
  {
    if gates[g].op != op || |gates[g].fanouts| != 1 then Cascade([], false, g)
    else
      CascadeGate(gates, rank, g);
      var a, b := gates[g].fanins[0].gate, gates[g].fanins[1].gate;
      if gates[a].op == op && gates[b].op != op then Prepend(b, Walk(gates, rank, op, a))
      else if gates[a].op != op && gates[b].op == op then Prepend(a, Walk(gates, rank, op, b))
      else Cascade([a, b], true, g)
  }

  ghost function Prepend(x: GateId, c: Cascade): (c': Cascade) { c.(list := [x] + c.list) }

  ghost function PrependAll(list: seq<GateId>, c: Cascade): (c': Cascade) { c.(list := list + c.list) }

  /** One gate further down, where f is the operand and next the gate of the cascade. */
  lemma WalkGoesOn(gates: Gates, rank: GateId -> nat, op: Op, list: seq<GateId>, cur: GateId, f: GateId, next: GateId)
    requires IsBoolean(gates) && Ranked(gates, rank) && IsCascadeOp(op) && cur in gates && next in gates && f in gates
    requires gates[cur].op == op && |gates[cur].fanouts| == 1 && gates[next].op == op && gates[f].op != op
    requires Combines(gates, cur, op, f, next)
    ensures PrependAll(list, Walk(gates, rank, op, cur)) == PrependAll(list + [f], Walk(gates, rank, op, next))
  {
    hide IsBoolean, Ranked;
    var c := Walk(gates, rank, op, next);
    assert Walk(gates, rank, op, cur) == Prepend(f, c);
    assert list + ([f] + c.list) == list + [f] + c.list;
  }

  lemma WalkStops(gates: Gates, rank: GateId -> nat, op: Op, list: seq<GateId>, cur: GateId)
    requires IsBoolean(gates) && Ranked(gates, rank) && IsCascadeOp(op) && cur in gates
    ensures gates[cur].op != op || |gates[cur].fanouts| != 1 ==>
              PrependAll(list, Walk(gates, rank, op, cur)) == Cascade(list, false, cur)
    ensures gates[cur].op == op && |gates[cur].fanouts| == 1 && |gates[cur].fanins| == 2 ==>
              var a, b := gates[cur].fanins[0].gate, gates[cur].fanins[1].gate;
              (a in gates && b in gates && (gates[a].op == op <==> gates[b].op == op)) ==>
                PrependAll(list, Walk(gates, rank, op, cur)) == Cascade(list + [a] + [b], true, cur)
  {
    hide IsBoolean, Ranked;
  }

  /** The operands are all there exactly if every gate of the cascade has one fanout. */
  lemma {:induction false} WalkIsComplete(gates: Gates, rank: GateId -> nat, op: Op, g: GateId)
    requires IsBoolean(gates) && Ranked(gates, rank) && IsCascadeOp(op) && g in gates
    ensures Walk(gates, rank, op, g).complete <==> SingleFanouts(gates, rank, op, g)
    decreases rank(g)
  {
    hide IsBoolean, Ranked;
    if gates[g].op == op && |gates[g].fanouts| == 1 {
      CascadeGate(gates, rank, g);
      var a, b := gates[g].fanins[0].gate, gates[g].fanins[1].gate;
      WalkIsComplete(gates, rank, op, a);
      WalkIsComplete(gates, rank, op, b);
    }
  }

  /** On the way down: what was collected, and the chain of gates to the current one. */
  ghost predicate Walking(gates: Gates, rank: GateId -> nat, op: Op, g: GateId, list: seq<GateId>, chain: seq<GateId>, cur: GateId)
    requires IsBoolean(gates) && Ranked(gates, rank) && IsCascadeOp(op) && g in gates
  {
    && cur in gates && Collected(gates, op, g, list, false, cur)
    && Walk(gates, rank, op, g) == PrependAll(list, Walk(gates, rank, op, cur))
    && (forall x | x in list :: x in gates && gates[x].op != OUTPUT && gates[x].op != op && rank(x) < rank(g))
    && rank(cur) <= rank(g) && (if list == [] then cur == g else gates[g].op == op)
    && ChainTo(gates, rank, op, g, chain, cur) && |list| + 1 == |chain|
  }

  lemma WalkingStarts(gates: Gates, rank: GateId -> nat, op: Op, g: GateId)
    requires IsBoolean(gates) && Ranked(gates, rank) && IsCascadeOp(op) && g in gates
    ensures Walking(gates, rank, op, g, [], [g], g)
  {
    hide IsBoolean, Ranked, Walk, ChainTo, Collected;
    NothingCollected(gates, op, g);
    var c := Walk(gates, rank, op, g);
    assert [] + c.list == c.list;
  }

  lemma BothCombine(gates: Gates, cur: GateId, op: Op, a: GateId, b: GateId)
    requires cur in gates && gates[cur].op == op && |gates[cur].fanins| == 2
    requires gates[cur].fanins[0].gate == a && gates[cur].fanins[1].gate == b
    ensures Combines(gates, cur, op, a, b) && Combines(gates, cur, op, b, a)
  {
  }

  lemma WalkingOn(gates: Gates, rank: GateId -> nat, op: Op, g: GateId, list: seq<GateId>, chain: seq<GateId>, cur: GateId,
                  f: GateId, next: GateId)
    requires IsBoolean(gates) && Ranked(gates, rank) && IsCascadeOp(op) && g in gates
    requires Walking(gates, rank, op, g, list, chain, cur) && gates[cur].op == op && |gates[cur].fanouts| == 1
    requires Combines(gates, cur, op, f, next) && Combines(gates, cur, op, next, f) && IsFanin(gates, cur, next)
    requires f in gates && gates[f].op != op && gates[f].op != OUTPUT && rank(f) < rank(cur)
    requires next in gates && gates[next].op == op && rank(next) < rank(cur)
    ensures Walking(gates, rank, op, g, list + [f], chain + [next], next)
  {
    hide IsBoolean, Ranked, Walk, Collected, Combines, PrependAll, ChainTo;
    CollectOne(gates, op, g, list, cur, next, f);
    ChainLonger(gates, rank, op, g, chain, cur, next);
    WalkGoesOn(gates, rank, op, list, cur, f, next);
  }

  lemma WalkingDone(gates: Gates, rank: GateId -> nat, op: Op, g: GateId, list: seq<GateId>, chain: seq<GateId>, cur: GateId,
                    a: GateId, b: GateId)
    requires IsBoolean(gates) && Ranked(gates, rank) && IsCascadeOp(op) && g in gates
    requires Walking(gates, rank, op, g, list, chain, cur) && gates[cur].op == op && |gates[cur].fanouts| == 1
    requires |gates[cur].fanins| == 2 && gates[cur].fanins[0].gate == a && gates[cur].fanins[1].gate == b
    requires a in gates && b in gates && (gates[a].op == op <==> gates[b].op == op) && rank(a) < rank(cur) && rank(b) < rank(cur)
    requires gates[a].op != OUTPUT && gates[b].op != OUTPUT
    ensures Walk(gates, rank, op, g) == Cascade(list + [a] + [b], true, cur)
    ensures Collected(gates, op, g, list + [a] + [b], true, cur)
    ensures forall x | x in list + [a] + [b] :: x in gates && gates[x].op != OUTPUT && rank(x) < rank(g)
    ensures gates[g].op == op && IsChain(gates, op, chain) && chain[0] == g && |list| + 1 == |chain|
    ensures Avoids(list + [a] + [b], chain, |chain|)
  {
    hide IsBoolean, Ranked, Walk, Collected, PrependAll, IsChain, Avoids;
    CollectBoth(gates, op, g, list, cur, a, b);
    LastAvoids(gates, rank, op, g, chain, cur, list, a, b);
    WalkStops(gates, rank, op, list, cur);
  }

  lemma WalkingBreaksOff(gates: Gates, rank: GateId -> nat, op: Op, g: GateId, list: seq<GateId>, chain: seq<GateId>, cur: GateId)
    requires IsBoolean(gates) && Ranked(gates, rank) && IsCascadeOp(op) && g in gates
    requires Walking(gates, rank, op, g, list, chain, cur) && (gates[cur].op != op || |gates[cur].fanouts| != 1)
    ensures Walk(gates, rank, op, g) == Cascade(list, false, cur) && Collected(gates, op, g, list, false, cur)
    ensures forall x | x in list :: x in gates && gates[x].op != OUTPUT && rank(x) < rank(g)
    ensures list != [] ==> gates[g].op == op && IsChain(gates, op, chain) && chain[0] == g
    ensures list != [] ==> |list| <= |chain| + 1 && Avoids(list, chain, |chain|)
  {
    hide IsBoolean, Ranked, Walk, Collected, PrependAll, IsChain, Avoids, ChainTo;
    SinglesAvoid(gates, rank, op, g, chain, cur, list);
    WalkStops(gates, rank, op, list, cur);
  }

  lemma CascadeGate(gates: Gates, rank: GateId -> nat, g: GateId)
    requires IsBoolean(gates) && Ranked(gates, rank) && g in gates && IsCascadeOp(gates[g].op)
    ensures |gates[g].fanins| == 2
    ensures forall i: nat | i < 2 ::
              var f := gates[g].fanins[i].gate; f in gates && gates[f].op != OUTPUT && rank(f) < rank(g) && IsFanin(gates, g, f)
  {
    assert GateIsBoolean(gates[g]);
    forall i: nat | i < 2
      ensures var f := gates[g].fanins[i].gate; f in gates && gates[f].op != OUTPUT && rank(f) < rank(g) && IsFanin(gates, g, f)
    {
      FaninOf(gates, rank, g, i);
      assert FaninMirrored(gates, g, i);
      assert GateIsBoolean(gates[gates[g].fanins[i].gate]);
    }
  }

  lemma NothingCollected(gates: Gates, op: Op, g: GateId)
    requires IsBoolean(gates) && IsCascadeOp(op) && g in gates
    ensures Collected(gates, op, g, [], false, g)
    ensures forall rank: GateId -> nat :: ChainTo(gates, rank, op, g, [g], g)
  {
  }

  /** The chain leads from g, if that has the operation, down to cur. */
  ghost predicate ChainTo(gates: Gates, rank: GateId -> nat, op: Op, g: GateId, chain: seq<GateId>, cur: GateId)
    requires g in gates
  {
    && chain != [] && chain[0] == g && chain[|chain| - 1] == cur
    && (gates[g].op == op ==> IsChain(gates, op, chain) && forall k | 0 <= k < |chain| :: rank(cur) <= rank(chain[k]))
  }

  lemma ChainLonger(gates: Gates, rank: GateId -> nat, op: Op, g: GateId, chain: seq<GateId>, cur: GateId, next: GateId)
    requires g in gates && ChainTo(gates, rank, op, g, chain, cur)
    requires next in gates && gates[next].op == op && IsFanin(gates, cur, next) && rank(next) < rank(cur)
    ensures ChainTo(gates, rank, op, g, chain + [next], next)
  {
    var longer := chain + [next];
    if gates[g].op == op {
      forall k: nat | k < |longer| - 1
        ensures ReadsNext(gates, longer, k)
      {
        if k < |chain| - 1 {
          assert ReadsNext(gates, chain, k);
        }
      }
    }
  }

  lemma SinglesAvoid(gates: Gates, rank: GateId -> nat, op: Op, g: GateId, chain: seq<GateId>, cur: GateId, list: seq<GateId>)
    requires g in gates && ChainTo(gates, rank, op, g, chain, cur) && forall x | x in list :: x in gates && gates[x].op != op
    ensures gates[g].op == op ==> IsChain(gates, op, chain) && chain[0] == g && Avoids(list, chain, |chain|)
  {
  }

  lemma LastAvoids(gates: Gates, rank: GateId -> nat, op: Op, g: GateId, chain: seq<GateId>, cur: GateId, list: seq<GateId>,
                   a: GateId, b: GateId)
    requires g in gates && ChainTo(gates, rank, op, g, chain, cur) && forall x | x in list :: x in gates && gates[x].op != op
    requires rank(a) < rank(cur) && rank(b) < rank(cur) && cur in gates && gates[cur].op == op
    ensures gates[g].op == op ==> IsChain(gates, op, chain) && chain[0] == g && Avoids(list + [a] + [b], chain, |chain|)
  {
  }

  /** One operand is taken off the cascade. */
  lemma CollectOne(gates: Gates, op: Op, g: GateId, list: seq<GateId>, cur: GateId, next: GateId, operand: GateId)
    requires IsBoolean(gates) && IsCascadeOp(op) && Collected(gates, op, g, list, false, cur)
    requires Combines(gates, cur, op, next, operand)
    ensures Collected(gates, op, g, list + [operand], false, next)
  {
    hide IsBoolean, Consistent, Combines;
    forall v: Valuation | Consistent(gates, v)
      ensures v(g) == Combine(op, Fold(op, ValuesOf(v, list + [operand])), v(next))
    {
      CombinationValue(gates, cur, op, next, operand, v);
      CollectedAt(gates, op, g, list, cur, v);
      FoldMore(op, v, list, operand);
    }
  }

  lemma CollectedAt(gates: Gates, op: Op, g: GateId, list: seq<GateId>, act: GateId, v: Valuation)
    requires IsBoolean(gates) && IsCascadeOp(op) && Collected(gates, op, g, list, false, act) && Consistent(gates, v)
    ensures v(g) == Combine(op, Fold(op, ValuesOf(v, list)), v(act))
  {
  }

  lemma FoldMore(op: Op, v: Valuation, list: seq<GateId>, x: GateId)
    requires IsCascadeOp(op)
    ensures Fold(op, ValuesOf(v, list + [x])) == Combine(op, Fold(op, ValuesOf(v, list)), v(x))
  {
    assert ValuesOf(v, list + [x])[..|list|] == ValuesOf(v, list);
  }

  lemma CollectBoth(gates: Gates, op: Op, g: GateId, list: seq<GateId>, cur: GateId, a: GateId, b: GateId)
    requires IsBoolean(gates) && IsCascadeOp(op) && Collected(gates, op, g, list, false, cur)
    requires Combines(gates, cur, op, a, b)
    ensures Collected(gates, op, g, list + [a] + [b], true, cur)
  {
    hide IsBoolean, Consistent, Combines;
    forall v: Valuation | Consistent(gates, v)
      ensures v(g) == Fold(op, ValuesOf(v, list + [a] + [b]))
    {
      CombinationValue(gates, cur, op, a, b, v);
      CollectedAt(gates, op, g, list, cur, v);
      FoldMore(op, v, list, a);
      FoldMore(op, v, list + [a], b);
    }
  }

  /** The tree was added, its root has the value of the folded operands, and it has taken over g's fanouts. */
  ghost predicate Balanced(before: Gates, grown: Gates, after: Gates, op: Op, g: GateId, list: seq<GateId>, root: GateId) {
    && IsCascadeOp(op) && IsBoolean(before) && IsBoolean(grown) && IsBoolean(after) && Grown(before, grown)
    && g in grown && root in grown && root != g && IsReplaced(grown, after, g, root)
    && forall v: Valuation | Consistent(grown, v) :: v(root) == Fold(op, ValuesOf(v, list))
  }

  lemma MakeBalanced(before: Gates, grown: Gates, after: Gates, op: Op, g: GateId, list: seq<GateId>, root: GateId)
    requires IsCascadeOp(op) && IsBoolean(before) && IsBoolean(grown) && IsBoolean(after) && Grown(before, grown)
    requires g in grown && root in grown && root != g && IsReplaced(grown, after, g, root) && SameFold(grown, op, list, [root])
    ensures Balanced(before, grown, after, op, g, list, root)
  {
    hide IsBoolean, Grown, IsReplaced, Consistent;
    forall v: Valuation | Consistent(grown, v)
      ensures v(root) == Fold(op, ValuesOf(v, list))
    {
      assert ValuesOf(v, [root]) == [v(root)];
      FoldOfOne(op, v(root));
      assert Fold(op, ValuesOf(v, list)) == Fold(op, ValuesOf(v, [root]));
    }
  }

  /** The root of a whole cascade's tree is equal to g. */
  lemma WholeCascade(before: Gates, grown: Gates, op: Op, g: GateId, list: seq<GateId>, act: GateId, root: GateId)
    requires IsCascadeOp(op) && IsBoolean(before) && IsBoolean(grown) && Grown(before, grown) && Collected(before, op, g, list, true, act)
    requires SameFold(grown, op, list, [root])
    ensures EqualGates(grown, g, root)
  {
    hide IsBoolean, Grown, Consistent;
    forall v: Valuation | Consistent(grown, v)
      ensures v(g) == v(root)
    {
      GrownConsistent(before, grown, v);
      assert v(g) == Fold(op, ValuesOf(v, list));
      assert ValuesOf(v, [root]) == [v(root)];
      FoldOfOne(op, v(root));
      assert Fold(op, ValuesOf(v, list)) == Fold(op, ValuesOf(v, [root]));
    }
  }

  /**
   A cascade with a gate that has other fanouts: the tree leaves that gate out, and has the right value
   under exactly those inputs under which its value makes no difference.
   */
  lemma DroppedGateMatters(before: Gates, grown: Gates, after: Gates, op: Op, g: GateId, list: seq<GateId>,
                           act: GateId, root: GateId, v: Valuation)
    requires IsBoolean(before) && IsCascadeOp(op) && Collected(before, op, g, list, false, act)
    requires Balanced(before, grown, after, op, g, list, root) && Consistent(grown, v)
    ensures v(g) == v(root) <==> Combine(op, v(root), v(act)) == v(root)
    ensures op == XOR ==> (v(g) == v(root) <==> !v(act))
    ensures op == AND ==> (v(g) == v(root) <==> v(root) ==> v(act))
    ensures op == OR ==> (v(g) == v(root) <==> v(act) ==> v(root))
  {
    hide IsBoolean, Grown, Consistent, IsReplaced;
    GrownConsistent(before, grown, v);
    CollectedAt(before, op, g, list, act, v);
    assert v(root) == Fold(op, ValuesOf(v, list));
  }

  lemma BothAreGates(gates: Gates, g: GateId, root: GateId)
    requires IsBoolean(gates) && g in gates && root in gates
    ensures Mirrored(gates) && gates[g].width == gates[root].width
  {
    assert GateIsBoolean(gates[g]) && GateIsBoolean(gates[root]);
  }

  lemma ReplacedConstants(gates: Gates, gates': Gates, l: Lists, g: GateId, root: GateId, op: Op)
    requires ConstantsOk(gates, l) && g in gates && root in gates && g != root && IsReplaced(gates, gates', g, root)
    requires IsBoolean(gates') && gates[g].op == op && IsCascadeOp(op)
    ensures ConstantsOk(gates', l) && gates'.Keys == gates.Keys
  {
    ReplacedKeys(gates, gates', g, root);
    hide IsBoolean, IsReplaced;
    assert ReplacedAt(gates, gates', g, root, l.zero) && ReplacedAt(gates, gates', g, root, l.one);
    assert |gates[l.zero].fanins| == 1 by { ZeroHasFanin(gates, l); }
  }

  // ----- the depth of the operands -----

  /** d is the largest depth of the operands, or 1 if they are all sources. */
  ghost predicate IsOperandDepth(gates: Gates, list: seq<GateId>, d: nat) {
    && 1 <= d && (forall x | x in list :: DepthAtMost(gates, x, d))
    && (d == 1 || exists x :: x in list && IsDepth(gates, x, d))
  }

  lemma {:induction false} DepthExists(gates: Gates, rank: GateId -> nat, x: GateId, n: nat) returns (d: nat)
    requires Ranked(gates, rank) && x in gates && forall p | StartsAt(gates, p, x) :: |p| <= n + 1
    ensures IsDepth(gates, x, d)
    decreases n
  {
    if p :| StartsAt(gates, p, x) && |p| == n + 1 {
      d := n;
      assert HasPathOf(gates, x, n);
    } else {
      assert StartsAt(gates, [x], x);
      d := DepthExists(gates, rank, x, n - 1);
    }
  }

  lemma {:induction false} DeepestOf(gates: Gates, rank: GateId -> nat, list: seq<GateId>) returns (d: nat)
    requires Ranked(gates, rank) && forall x | x in list :: x in gates
    ensures IsOperandDepth(gates, list, d)
    decreases |list|
  {
    hide Ranked, IsDepth;
    if list == [] {
      d := 1;
    } else {
      var front, last := list[..|list| - 1], list[|list| - 1];
      assert list == front + [last];
      d := DeepestOf(gates, rank, front);
      forall p | StartsAt(gates, p, last)
        ensures |p| <= rank(last) + 1
      {
        RankBoundsPaths(gates, rank, p);
      }
      var e := DepthExists(gates, rank, last, rank(last));
      forall p | StartsAt(gates, p, last)
        ensures |p| <= e + 1
      {
        DepthBounds(gates, last, e, p);
      }
      if d < e {
        d := e;
      }
    }
  }

  /** The operands may be combined to gates that replace g. */
  lemma OperandDepth(gates: Gates, rank: GateId -> nat, g: GateId, list: seq<GateId>) returns (d: nat)
    requires Ranked(gates, rank) && forall x | x in list :: x in gates && gates[x].op != OUTPUT && rank(x) < rank(g)
    ensures 1 <= d && IsOperandDepth(gates, list, d) && ListOk(gates, list, d, g)
  {
    hide Ranked, Independent, DepthAtMost;
    d := DeepestOf(gates, rank, list);
    forall x | x in list
      ensures Independent(gates, x, g)
    {
      LowerIsIndependent(gates, rank, x, g);
    }
  }

  lemma NewGateFacts(gates: Gates, l: Lists, rank: GateId -> nat, z: GateId, op: Op, f0: GateId, f1: GateId)
    returns (rank': GateId -> nat)
    requires ConstantsOk(gates, l) && Ranked(gates, rank) && (forall g | g in gates :: g < z)
    requires f0 in gates && f1 in gates && IsCascadeOp(op) && gates[f0].op != OUTPUT && gates[f1].op != OUTPUT
    ensures z !in gates && ConstantsOk(WithGate(gates, z, op, f0, f1), l) && Ranked(WithGate(gates, z, op, f0, f1), rank')
    ensures Grown(gates, WithGate(gates, z, op, f0, f1)) && Combines(WithGate(gates, z, op, f0, f1), z, op, f0, f1)
    ensures forall g | g in WithGate(gates, z, op, f0, f1) :: g < z + 1
    ensures var created := gates[z := Gate(op, 1, 0, [Wire(0, 0), Wire(0, 0)], [])];
            var half := Connected(created, f0, 0, Wire(z, 0));
            && z in half && |half[z].fanins| == 2 && f1 in half
            && Connected(half, f1, 0, Wire(z, 1)) == WithGate(gates, z, op, f0, f1)
  {
    hide Connected, WithGate, IsBoolean, Ranked, Grown, ConstantsOk, Combines;
    assert z !in gates;
    ConstantsAreBoolean(gates, l);
    WithGateInSteps(gates, z, op, f0, f1);
    WithGateIsBoolean(gates, z, op, f0, f1);
    WithGateCombines(gates, z, op, f0, f1);
    rank' := NewGateRanked(gates, WithGate(gates, z, op, f0, f1), rank, z, op, f0, f1);
    GrownConstants(gates, WithGate(gates, z, op, f0, f1), l);
  }

  lemma WithGateCombines(gates: Gates, z: GateId, op: Op, f0: GateId, f1: GateId)
    requires z !in gates && f0 in gates && f1 in gates
    ensures var gates' := WithGate(gates, z, op, f0, f1);
            gates'.Keys == gates.Keys + {z} && gates'[z].fanins == [Wire(f0, 0), Wire(f1, 0)] && Combines(gates', z, op, f0, f1)
  {
    WithGateAt(gates, z, op, f0, f1);
    hide WithGate;
  }

  lemma WithGateInSteps(gates: Gates, z: GateId, op: Op, f0: GateId, f1: GateId)
    requires z !in gates && f0 in gates && f1 in gates
    ensures var created := gates[z := Gate(op, 1, 0, [Wire(0, 0), Wire(0, 0)], [])];
            var half := Connected(created, f0, 0, Wire(z, 0));
            && z in half && |half[z].fanins| == 2 && f1 in half
            && Connected(half, f1, 0, Wire(z, 1)) == WithGate(gates, z, op, f0, f1)
  {
    HalfConnected(gates, z, op, f0);
    hide Connected;
  }

  lemma ConstantsAreBoolean(gates: Gates, l: Lists)
    requires ConstantsOk(gates, l)
    ensures IsBoolean(gates)
  {
  }

  lemma PairsAtFirst(gates: Gates, op: Op, list: seq<GateId>, d: int, g: GateId, chain: seq<GateId>, t: int)
    requires IsBoolean(gates) && IsCascadeOp(op)
    ensures ListOk(gates, [], d + 1, g) && Avoids([], chain, t - 1) && Pairs(gates, op, list, [], list)
  {
    forall v: Valuation | Consistent(gates, v)
      ensures PairUp(op, ValuesOf(v, list)) == ValuesOf(v, []) + PairUp(op, ValuesOf(v, list))
    {
    }
  }

  lemma ListMembers(gates: Gates, list: seq<GateId>, d: int, g: GateId, x: GateId)
    requires ListOk(gates, list, d, g) && x in list
    ensures x in gates && gates[x].op != OUTPUT && DepthAtMost(gates, x, d) && Independent(gates, x, g)
  {
    hide DepthAtMost, Independent;
  }

  lemma NeutralStays(gates: Gates, gates': Gates, l: Lists, op: Op, g: GateId)
    requires ConstantsOk(gates, l) && ConstantsOk(gates', l) && Grown(gates, gates') && IsCascadeOp(op)
    requires g in gates && gates[g].op == op
    ensures g in gates' && gates'[g].op == op
    ensures forall v: Valuation | Consistent(gates', v) :: v(NeutralGate(op, l)) == Neutral(op)
  {
    hide IsBoolean, ConstantsOk, Consistent;
    assert SameGate(gates[g], gates'[g]);
    NeutralFacts(gates', l, op, g);
  }

  /** The new gate may join the new list. */
  lemma OnePair(gates: Gates, gates': Gates, op: Op, list: seq<GateId>, newList: seq<GateId>, z: GateId,
                x: GateId, y: GateId, d: int, g: GateId, chain: seq<GateId>, t: int)
    requires IsBoolean(gates) && IsBoolean(gates') && Grown(gates, gates') && IsCascadeOp(op) && 1 <= d
    requires ListOk(gates, list, d, g) && ListOk(gates, newList, d + 1, g) && Avoids(list, chain, t) && Avoids(newList, chain, t - 1)
    requires IsChain(gates', op, chain) && chain[0] == g && 2 <= t <= |chain| && Combines(gates', z, op, x, y)
    requires y in list && (x in list || (x in gates && gates[x].op != op))
    requires x in gates && DepthAtMost(gates, x, d) && Independent(gates, x, g)
    ensures ListOk(gates', list, d, g) && ListOk(gates', newList + [z], d + 1, g) && Avoids(newList + [z], chain, t - 1)
  {
    hide IsBoolean, DepthAtMost, Independent;
    ListGrown(gates, gates', list, d, g);
    ListGrown(gates, gates', newList, d + 1, g);
    GrownKeepsCone(gates, gates', x, d, g);
    assert y in gates' && DepthAtMost(gates', y, d) && Independent(gates', y, g);
    assert SameGate(gates[x], gates'[x]);
    CombinationAvoids(gates', op, chain, list, t, z, x, y);
    CombinationDepth(gates', z, op, x, y, d);
    CombinationIndependent(gates', z, op, x, y, g);
  }

  lemma NothingGrown(gates: Gates)
    ensures Grown(gates, gates)
  {
  }

  lemma FanoutTarget(gates: Gates, g: GateId, i: nat)
    requires IsBoolean(gates) && g in gates && i < |gates[g].fanouts|
    ensures var t := gates[g].fanouts[i].target.gate;
            t in gates && (IsCascadeOp(gates[t].op) ==> |gates[t].fanins| == 2)
  {
    assert FanoutMirrored(gates, g, i);
    assert GateIsBoolean(gates[gates[g].fanouts[i].target.gate]);
  }

  lemma GrownConstants(gates: Gates, gates': Gates, l: Lists)
    requires ConstantsOk(gates, l) && Grown(gates, gates') && IsBoolean(gates')
    ensures ConstantsOk(gates', l)
  {
    hide IsBoolean;
    assert SameGate(gates[l.one], gates'[l.one]) && SameGate(gates[l.zero], gates'[l.zero]);
    assert |gates[l.zero].fanins| == 1 by { ZeroHasFanin(gates, l); }
  }

  lemma ZeroHasFanin(gates: Gates, l: Lists)
    requires IsBoolean(gates) && l.zero in gates && gates[l.zero].op == NOT
    ensures |gates[l.zero].fanins| == 1
  {
    assert GateIsBoolean(gates[l.zero]);
  }
}
