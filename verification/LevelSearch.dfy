/** simple_circuit_get_depth: the marking search for levels, on graphs that may contain cycles. */
module LevelSearch {
  import opened GateGraph

  /** level_infot, without the counter of MUL gates, which is kept like that of AND gates */
  datatype LevelInfo = LevelInfo(gates: set<GateId>, numAnd: int)

  /** The exception for a cycle becomes a result. */
  datatype DepthResult = Cycle | Depth(depth: int)

  type LevelMap = map<GateId, int>
  type LevelSet = map<nat, LevelInfo>

  /** The mark of a gate whose fanins are being visited. */
  const VISITING: int := -1

  predicate IsSource(op: Op) { op == INPUT || op == ONE || op == CONST }

  /** What add_fanout guarantees: sources have no fanins, and all other gates have some. */
  ghost predicate HasFanins(gates: Gates) {
    && (forall g, i: nat | g in gates && i < |gates[g].fanins| :: gates[g].fanins[i].gate in gates)
    && (forall g | g in gates :: gates[g].fanins == [] <==> IsSource(gates[g].op))
  }

  ghost predicate IsFanin(gates: Gates, g: GateId, f: GateId) {
    g in gates && f in gates && exists i :: 0 <= i < |gates[g].fanins| && gates[g].fanins[i].gate == f
  }

  /** A path against the wires. */
  ghost predicate IsBackPath(gates: Gates, p: seq<GateId>) {
    && p != [] && p[0] in gates
    && forall i | 0 <= i < |p| - 1 :: IsFanin(gates, p[i], p[i + 1])
  }

  ghost predicate StartsAt(gates: Gates, p: seq<GateId>, g: GateId) {
    IsBackPath(gates, p) && p[0] == g
  }

  ghost predicate HasPathOf(gates: Gates, g: GateId, wires: nat) {
    exists p :: StartsAt(gates, p, g) && |p| == wires + 1
  }

  /** d is the number of wires on a longest path against the wires. */
  ghost predicate IsDepth(gates: Gates, g: GateId, d: int) {
    && 0 <= d && HasPathOf(gates, g, d)
    && forall p | StartsAt(gates, p, g) :: |p| <= d + 1
  }

  ghost predicate Repeats(p: seq<GateId>) {
    exists i, j :: 0 <= i < j < |p| && p[i] == p[j]
  }

  ghost predicate CycleReachable(gates: Gates, g: GateId) {
    exists p :: StartsAt(gates, p, g) && Repeats(p)
  }

  // ----- paths -----

  lemma PathAppend(gates: Gates, p: seq<GateId>, q: seq<GateId>)
    requires IsBackPath(gates, p) && IsBackPath(gates, q) && IsFanin(gates, p[|p| - 1], q[0])
    ensures IsBackPath(gates, p + q)
  {
    var r := p + q;
    forall i | 0 <= i < |r| - 1
      ensures IsFanin(gates, r[i], r[i + 1])
    {
      if i < |p| - 1 {
        assert IsFanin(gates, p[i], p[i + 1]);
      } else if i >= |p| {
        assert IsFanin(gates, q[i - |p|], q[i - |p| + 1]);
      }
    }
  }

  lemma PathPart(gates: Gates, p: seq<GateId>, i: nat, j: nat)
    requires IsBackPath(gates, p) && i < j <= |p|
    ensures IsBackPath(gates, p[i..j])
  {
    var r := p[i..j];
    if i > 0 {
      assert IsFanin(gates, p[i - 1], p[i - 1 + 1]);
    }
    forall k | 0 <= k < |r| - 1
      ensures IsFanin(gates, r[k], r[k + 1])
    {
      assert IsFanin(gates, p[i + k], p[i + k + 1]);
    }
  }

  /** Going round a cycle gives paths of any length. */
  lemma {:induction false} GoRound(gates: Gates, p: seq<GateId>, i: nat, j: nat, n: nat) returns (q: seq<GateId>)
    requires IsBackPath(gates, p) && i < j < |p| && p[i] == p[j]
    ensures IsBackPath(gates, q) && q[0] == p[0] && |q| >= n
    decreases if |p| < n then n - |p| else 0
  {
    if |p| >= n {
      q := p;
    } else {
      assert IsFanin(gates, p[j - 1], p[j - 1 + 1]);
      PathPart(gates, p, 0, j);
      PathPart(gates, p, i, |p|);
      PathAppend(gates, p[0..j], p[i..|p|]);
      q := GoRound(gates, p[0..j] + p[i..|p|], i, j, n);
    }
  }

  /** A gate with a depth reaches no cycle. */
  lemma DepthExcludesCycles(gates: Gates, g: GateId, d: int)
    requires IsDepth(gates, g, d)
    ensures !CycleReachable(gates, g)
  {
    if CycleReachable(gates, g) {
      var p :| StartsAt(gates, p, g) && Repeats(p);
      var i, j :| 0 <= i < j < |p| && p[i] == p[j];
      var q := GoRound(gates, p, i, j, d + 2);
      assert StartsAt(gates, q, g);
    }
  }

  lemma DepthHasPath(gates: Gates, g: GateId, d: int)
    requires IsDepth(gates, g, d)
    ensures 0 <= d && HasPathOf(gates, g, d)
  {
  }

  lemma DepthBounds(gates: Gates, g: GateId, d: int, p: seq<GateId>)
    requires IsDepth(gates, g, d) && StartsAt(gates, p, g)
    ensures |p| <= d + 1
  {
  }

  lemma DepthIsUnique(gates: Gates, g: GateId, d: int, e: int)
    requires IsDepth(gates, g, d) && IsDepth(gates, g, e)
    ensures d == e
  {
    var p :| StartsAt(gates, p, g) && |p| == d + 1;
    var q :| StartsAt(gates, q, g) && |q| == e + 1;
  }

  /** A fanin is less deep. */
  lemma FaninIsLessDeep(gates: Gates, g: GateId, f: GateId, d: int, e: int)
    requires IsFanin(gates, g, f) && IsDepth(gates, f, d) && IsDepth(gates, g, e)
    ensures d < e
  {
    var p :| StartsAt(gates, p, f) && |p| == d + 1;
    PathAppend(gates, [g], p);
    assert StartsAt(gates, [g] + p, g);
  }

  ghost predicate AtMost(gates: Gates, g: GateId, bound: int) {
    exists d :: d <= bound && IsDepth(gates, g, d)
  }

  ghost predicate Reached(gates: Gates, g: GateId, n: nat, depth: int)
    requires g in gates && n <= |gates[g].fanins|
  {
    exists i: nat :: i < n && IsDepth(gates, gates[g].fanins[i].gate, depth)
  }

  /** depth is the largest depth of the first n fanins of g, -1 if there are none. */
  ghost predicate IsDeepest(gates: Gates, g: GateId, n: nat, depth: int)
    requires g in gates && n <= |gates[g].fanins|
  {
    && -1 <= depth && (if n == 0 then depth == -1 else Reached(gates, g, n, depth))
    && forall i: nat | i < n :: AtMost(gates, gates[g].fanins[i].gate, depth)
  }

  lemma AtMostMore(gates: Gates, g: GateId, low: int, high: int)
    requires AtMost(gates, g, low) && low <= high
    ensures AtMost(gates, g, high)
  {
    hide IsDepth;
  }

  lemma NextFanin(gates: Gates, g: GateId, n: nat, depth: int, d: int)
    requires g in gates && n < |gates[g].fanins| && IsDeepest(gates, g, n, depth)
    requires IsDepth(gates, gates[g].fanins[n].gate, d)
    ensures IsDeepest(gates, g, n + 1, if depth <= d then d else depth)
  {
    DepthHasPath(gates, gates[g].fanins[n].gate, d);
    hide IsDepth;
    var m := if depth <= d then d else depth;
    assert Reached(gates, g, n + 1, m);
    assert AtMost(gates, gates[g].fanins[n].gate, d);
    hide AtMost, Reached;
    forall i: nat | i < n + 1
      ensures AtMost(gates, gates[g].fanins[i].gate, m)
    {
      AtMostMore(gates, gates[g].fanins[i].gate, if i < n then depth else d, m);
    }
  }

  lemma PathToDepth(gates: Gates, g: GateId, depth: int)
    requires HasFanins(gates) && g in gates && IsDeepest(gates, g, |gates[g].fanins|, depth)
    ensures HasPathOf(gates, g, depth + 1)
  {
    hide IsDepth;
    assert IsBackPath(gates, [g]);
    if depth == -1 {
      assert StartsAt(gates, [g], g);
    } else {
      var i: nat :| i < |gates[g].fanins| && IsDepth(gates, gates[g].fanins[i].gate, depth);
      var f := gates[g].fanins[i].gate;
      DepthHasPath(gates, f, depth);
      var p :| StartsAt(gates, p, f) && |p| == depth + 1;
      PathAppend(gates, [g], p);
      assert StartsAt(gates, [g] + p, g);
    }
  }

  lemma PathsFrom(gates: Gates, g: GateId, depth: int, p: seq<GateId>)
    requires g in gates && IsDeepest(gates, g, |gates[g].fanins|, depth) && StartsAt(gates, p, g)
    ensures |p| <= depth + 2
  {
    hide IsDepth;
    if |p| > 1 {
      assert IsFanin(gates, p[0], p[0 + 1]);
      PathPart(gates, p, 1, |p|);
      var i: nat :| i < |gates[g].fanins| && gates[g].fanins[i].gate == p[1];
      assert AtMost(gates, gates[g].fanins[i].gate, depth);
      var d :| d <= depth && IsDepth(gates, gates[g].fanins[i].gate, d);
      DepthBounds(gates, p[1], d, p[1..]);
    }
  }

  lemma DepthFromFanins(gates: Gates, g: GateId, depth: int)
    requires HasFanins(gates) && g in gates && IsDeepest(gates, g, |gates[g].fanins|, depth)
    ensures IsDepth(gates, g, depth + 1)
  {
    hide IsDeepest, HasFanins, StartsAt, HasPathOf;
    PathToDepth(gates, g, depth);
    forall p | StartsAt(gates, p, g)
      ensures |p| <= depth + 2
    {
      PathsFrom(gates, g, depth, p);
    }
    assert -1 <= depth by {
      DeepestIsBounded(gates, g, depth);
    }
    DepthFromPaths(gates, g, depth + 1);
  }

  lemma DeepestIsBounded(gates: Gates, g: GateId, depth: int)
    requires g in gates && IsDeepest(gates, g, |gates[g].fanins|, depth)
    ensures -1 <= depth
  {
  }

  lemma DepthFromPaths(gates: Gates, g: GateId, d: nat)
    requires HasPathOf(gates, g, d) && forall p | StartsAt(gates, p, g) :: |p| <= d + 1
    ensures IsDepth(gates, g, d)
  {
  }

  // ----- the state of the search -----

  predicate Recorded(op: Op) { op != INPUT && op != ONE }

  ghost predicate Finished(m: LevelMap, g: GateId) { g in m && m[g] != VISITING }

  /** A finished gate has its depth, and so have its fanins. */
  ghost predicate EntryOk(gates: Gates, m: LevelMap, g: GateId) {
    && g in gates && g in m && IsDepth(gates, g, m[g]) && Recorded(gates[g].op)
    && forall i: nat | i < |gates[g].fanins| :: FaninDone(gates, m, g, i)
  }

  ghost predicate FaninDone(gates: Gates, m: LevelMap, g: GateId, i: nat)
    requires g in gates && i < |gates[g].fanins|
  {
    var f := gates[g].fanins[i].gate;
    f in gates && (Recorded(gates[f].op) ==> Finished(m, f))
  }

  ghost predicate EntriesOk(gates: Gates, m: LevelMap) {
    forall g | Finished(m, g) :: EntryOk(gates, m, g)
  }

  /** The marked gates are those on the path from the start to here. */
  ghost predicate StackOk(gates: Gates, m: LevelMap, stack: seq<GateId>) {
    && (forall g | g in m && m[g] == VISITING :: g in stack)
    && (forall g | g in stack :: g in m && m[g] == VISITING)
    && m.Keys <= gates.Keys
    && (stack != [] ==> IsBackPath(gates, stack))
  }

  ghost predicate InSet(s: LevelSet, d: nat, g: GateId) { d in s && g in s[d].gates }

  ghost function AndGates(gates: Gates, s: set<GateId>): (t: set<GateId>) {
    set g | g in s && g in gates && gates[g].op == AND
  }

  /** Level d holds exactly the finished gates of depth d, and counts its AND gates. */
  ghost predicate SetOk(gates: Gates, m: LevelMap, s: LevelSet) {
    && (forall d: nat, g :: InSet(s, d, g) <==> Finished(m, g) && m[g] == d)
    && (forall g | Finished(m, g) :: 0 <= m[g])
    && (forall d | d in s :: s[d].gates != {} && s[d].numAnd == |AndGates(gates, s[d].gates)|)
  }

  /** Every gate that was visited was asked for or feeds another gate. */
  ghost predicate VisitedOk(gates: Gates, m: LevelMap, asked: set<GateId>) {
    forall g | g in m :: g in asked || FeedsSomething(gates, g)
  }

  ghost predicate FeedsSomething(gates: Gates, g: GateId) { exists h :: IsFanin(gates, h, g) }

  lemma EntriesGrow(gates: Gates, m: LevelMap, g: GateId, d: int)
    requires EntriesOk(gates, m) && g in gates && !Finished(m, g) && IsDepth(gates, g, d) && Recorded(gates[g].op)
    requires forall i: nat | i < |gates[g].fanins| :: FaninDone(gates, m, g, i)
    ensures EntriesOk(gates, m[g := d])
  {
    hide IsDepth;
    DepthHasPath(gates, g, d);
    var m' := m[g := d];
    forall h | Finished(m', h)
      ensures EntryOk(gates, m', h)
    {
      if h != g {
        assert Finished(m, h) && EntryOk(gates, m, h);
      }
      forall i: nat | i < |gates[h].fanins|
        ensures FaninDone(gates, m', h, i)
      {
        assert FaninDone(gates, m, h, i);
      }
    }
  }

  lemma MarkKeepsEntries(gates: Gates, m: LevelMap, g: GateId)
    requires EntriesOk(gates, m) && g !in m
    ensures EntriesOk(gates, m[g := VISITING])
  {
    hide IsDepth;
    var m' := m[g := VISITING];
    forall h | Finished(m', h)
      ensures EntryOk(gates, m', h)
    {
      assert Finished(m, h) && EntryOk(gates, m, h);
      forall i: nat | i < |gates[h].fanins|
        ensures FaninDone(gates, m', h, i)
      {
        assert FaninDone(gates, m, h, i);
      }
    }
  }

  lemma MarkKeepsStack(gates: Gates, m: LevelMap, stack: seq<GateId>, g: GateId)
    requires StackOk(gates, m, stack) && g in gates && g !in m
    requires stack != [] ==> IsFanin(gates, stack[|stack| - 1], g)
    ensures StackOk(gates, m[g := VISITING], stack + [g])
  {
    assert IsBackPath(gates, [g]);
    if stack != [] {
      PathAppend(gates, stack, [g]);
    }
  }

  lemma UnmarkKeepsStack(gates: Gates, m: LevelMap, stack: seq<GateId>, g: GateId, d: int)
    requires StackOk(gates, m, stack + [g]) && g !in stack && d != VISITING
    ensures StackOk(gates, m[g := d], stack)
  {
    if stack != [] {
      PathPart(gates, stack + [g], 0, |stack|);
      assert (stack + [g])[0..|stack|] == stack;
    }
    forall h | h in stack
      ensures h in stack + [g]
    {
    }
  }

  function WithLevel(gates: Gates, s: LevelSet, g: GateId, d: nat): (s': LevelSet)
    requires g in gates
  {
    var info := if d in s then s[d] else LevelInfo({}, 0);
    s[d := LevelInfo(info.gates + {g}, info.numAnd + if gates[g].op == AND then 1 else 0)]
  }

  lemma SetGrows(gates: Gates, m: LevelMap, s: LevelSet, g: GateId, d: nat)
    requires SetOk(gates, m, s) && g in gates && !Finished(m, g)
    ensures SetOk(gates, m[g := d], WithLevel(gates, s, g, d))
  {
    hide AndGates;
    var s' := WithLevel(gates, s, g, d);
    assert !InSet(s, d, g);
    SetGrowsIn(gates, m, s, g, d);
    forall e | e in s'
      ensures s'[e].gates != {} && s'[e].numAnd == |AndGates(gates, s'[e].gates)|
    {
      if e == d {
        AndCount(gates, if d in s then s[d].gates else {}, g);
      }
    }
  }

  lemma SetGrowsIn(gates: Gates, m: LevelMap, s: LevelSet, g: GateId, d: nat)
    requires SetOk(gates, m, s) && g in gates && !Finished(m, g)
    ensures forall e: nat, h :: InSet(WithLevel(gates, s, g, d), e, h) <==> Finished(m[g := d], h) && m[g := d][h] == e
  {
    hide AndGates;
    forall e: nat, h
      ensures InSet(WithLevel(gates, s, g, d), e, h) <==> Finished(m[g := d], h) && m[g := d][h] == e
    {
      assert InSet(s, e, h) <==> Finished(m, h) && m[h] == e;
    }
  }

  lemma AndCount(gates: Gates, t: set<GateId>, g: GateId)
    requires g in gates && g !in t
    ensures |AndGates(gates, t + {g})| == |AndGates(gates, t)| + if gates[g].op == AND then 1 else 0
    ensures |AndGates(gates, {})| == 0
  {
    assert AndGates(gates, {}) == {};
    assert AndGates(gates, t + {g}) == AndGates(gates, t) + if gates[g].op == AND then {g} else {};
  }

  lemma MarkKeepsSet(gates: Gates, m: LevelMap, s: LevelSet, g: GateId)
    requires SetOk(gates, m, s) && g !in m
    ensures SetOk(gates, m[g := VISITING], s)
  {
    var m' := m[g := VISITING];
    forall e: nat, h
      ensures InSet(s, e, h) <==> Finished(m', h) && m'[h] == e
    {
      assert InSet(s, e, h) <==> Finished(m, h) && m[h] == e;
    }
  }

  class LevelComputation {
    const gates: Gates
    const withSet: bool
    ghost const asked: set<GateId>
    var levelMap: LevelMap
    var levelSet: LevelSet

    constructor (gates: Gates, withSet: bool, ghost asked: set<GateId>)
      requires HasFanins(gates)
      ensures this.asked == asked
      ensures Valid([]) && this.gates == gates && this.withSet == withSet && levelMap == map[] && levelSet == map[]
    {
      this.gates := gates;
      this.withSet := withSet;
      this.asked := asked;
      levelMap := map[];
      levelSet := map[];
    }

    ghost predicate Valid(stack: seq<GateId>)
      reads this
    {
      && HasFanins(gates) && EntriesOk(gates, levelMap) && StackOk(gates, levelMap, stack)
      && VisitedOk(gates, levelMap, asked) && (withSet ==> SetOk(gates, levelMap, levelSet))
    }

    /** The fanin cone of the start has a cycle, or g has its depth and is recorded. */
    method GetDepth(g: GateId, ghost stack: seq<GateId>) returns (r: DepthResult)
      requires Valid(stack) && g in gates
      requires if stack == [] then g in asked else IsFanin(gates, stack[|stack| - 1], g)
      modifies this`levelMap, this`levelSet
      ensures r.Cycle? ==> CycleReachable(gates, (stack + [g])[0])
      ensures r.Depth? ==> Valid(stack) && IsDepth(gates, g, r.depth)
      ensures r.Depth? ==> (Recorded(gates[g].op) ==> Finished(levelMap, g))
      ensures r.Depth? ==> Kept(old(levelMap), levelMap)
      decreases gates.Keys - levelMap.Keys
    {
      hide EntriesOk, StackOk, SetOk, VisitedOk, IsDepth, HasFanins, IsDeepest, FaninDone, IsFanin, Kept;
      NothingLost(levelMap);
      if g in levelMap {
        if levelMap[g] == VISITING {
          MarkedIsCycle(gates, levelMap, stack, g);
          return Cycle;
        }
        EntryOf(gates, levelMap, g);
        return Depth(levelMap[g]);
      }
      ghost var inner := stack;
      if gates[g].op != INPUT && gates[g].op != ONE {
        Mark(g, stack);
        inner := stack + [g];
      }
      var depth := -1;
      NoneDeepest(gates, g);
      var fanins := gates[g].fanins;
      for i := 0 to |fanins|
        invariant Valid(inner) && Kept(old(levelMap), levelMap)
        invariant Recorded(gates[g].op) ==> gates.Keys - levelMap.Keys < gates.Keys - old(levelMap.Keys)
        invariant IsDeepest(gates, g, i, depth)
        invariant forall j: nat | j < i :: FaninDone(gates, levelMap, g, j)
      {
        FaninsAreGates(gates, g, i);
        ghost var before := levelMap;
        var faninDepth := GetDepth(fanins[i].gate, inner);
        if faninDepth.Cycle? {
          assert (inner + [fanins[i].gate])[0] == (stack + [g])[0];
          return Cycle;
        }
        FaninsStayDone(gates, before, levelMap, g, i);
        KeptTransitive(old(levelMap), before, levelMap);
        NextFanin(gates, g, i, depth, faninDepth.depth);
        depth := if depth <= faninDepth.depth then faninDepth.depth else depth;
      }
      depth := depth + 1;
      DepthFromFanins(gates, g, depth - 1);
      if depth == 0 && gates[g].op != CONST {
        NoDepth(gates, g);
        assert gates[g].op == INPUT || gates[g].op == ONE;
        return Depth(depth);
      }
      SomeDepth(gates, g, depth);
      ghost var before := levelMap;
      Record(g, depth, stack);
      KeptTransitive(old(levelMap), before, levelMap);
      return Depth(depth);
    }

    /** A call from outside the recursion: it throws exactly if a cycle can be reached. */
    method LevelOf(g: GateId) returns (r: DepthResult)
      requires Valid([]) && g in gates && g in asked
      modifies this`levelMap, this`levelSet
      ensures r.Cycle? <==> CycleReachable(gates, g)
      ensures r.Depth? ==> Valid([]) && IsDepth(gates, g, r.depth) && Kept(old(levelMap), levelMap)
      ensures r.Depth? && Recorded(gates[g].op) ==> Finished(levelMap, g)
    {
      hide EntriesOk, StackOk, SetOk, VisitedOk, IsDepth, HasFanins, CycleReachable, Kept;
      r := GetDepth(g, []);
      if r.Depth? {
        DepthExcludesCycles(gates, g, r.depth);
      }
    }

    /** The loop over the linked list of gates that computes all levels. */
    method Levels(listed: seq<GateId>) returns (ok: bool)
      requires Valid([]) && forall g | g in listed :: g in gates && g in asked
      modifies this`levelMap, this`levelSet
      ensures ok <==> forall g | g in listed :: !CycleReachable(gates, g)
      ensures ok ==> Valid([]) && forall g | g in listed && Recorded(gates[g].op) :: Finished(levelMap, g)
    {
      hide EntriesOk, StackOk, SetOk, VisitedOk, IsDepth, HasFanins, CycleReachable, Finished;
      for i := 0 to |listed|
        invariant Valid([])
        invariant forall g | g in listed[..i] :: !CycleReachable(gates, g)
        invariant forall g | g in listed[..i] && Recorded(gates[g].op) :: Finished(levelMap, g)
      {
        var r := LevelOf(listed[i]);
        if r.Cycle? {
          return false;
        }
      }
      return true;
    }

    method Record(g: GateId, depth: int, ghost stack: seq<GateId>)
      requires Valid(stack + [g]) && g in gates && g !in stack && IsDepth(gates, g, depth) && Recorded(gates[g].op)
      requires forall i: nat | i < |gates[g].fanins| :: FaninDone(gates, levelMap, g, i)
      modifies this`levelMap, this`levelSet
      ensures Valid(stack) && Kept(old(levelMap), levelMap) && Finished(levelMap, g)
    {
      hide EntriesOk, StackOk, SetOk, IsDepth, HasFanins, FaninDone;
      DepthHasPath(gates, g, depth);
      TopIsMarked(gates, levelMap, stack, g);
      EntriesGrow(gates, levelMap, g, depth);
      UnmarkKeepsStack(gates, levelMap, stack, g, depth);
      if withSet {
        SetGrows(gates, levelMap, levelSet, g, depth);
        levelSet := WithLevel(gates, levelSet, g, depth);
      }
      levelMap := levelMap[g := depth];
    }

    method Mark(g: GateId, ghost stack: seq<GateId>)
      requires Valid(stack) && g in gates && g !in levelMap
      requires if stack == [] then g in asked else IsFanin(gates, stack[|stack| - 1], g)
      modifies this`levelMap
      ensures Valid(stack + [g]) && Kept(old(levelMap), levelMap) && g !in stack
      ensures gates.Keys - levelMap.Keys < gates.Keys - old(levelMap.Keys)
    {
      hide EntriesOk, StackOk, SetOk, IsDepth, HasFanins, IsFanin;
      MarkKeepsEntries(gates, levelMap, g);
      MarkKeepsStack(gates, levelMap, stack, g);
      if withSet {
        MarkKeepsSet(gates, levelMap, levelSet, g);
      }
      NotMarked(gates, levelMap, stack, g);
      assert stack == [] || FeedsSomething(gates, g);
      levelMap := levelMap[g := VISITING];
      assert g in gates.Keys - old(levelMap.Keys) && g !in gates.Keys - levelMap.Keys;
    }
  }

  /** What was finished stays so. */
  ghost predicate Kept(m: LevelMap, m': LevelMap) {
    m.Keys <= m'.Keys && forall g | Finished(m, g) :: Finished(m', g) && m'[g] == m[g]
  }

  lemma NothingLost(m: LevelMap)
    ensures Kept(m, m)
  {
  }

  lemma KeptTransitive(m: LevelMap, m': LevelMap, m'': LevelMap)
    requires Kept(m, m') && Kept(m', m'')
    ensures Kept(m, m'') && m.Keys <= m'.Keys <= m''.Keys
  {
  }

  lemma FaninsStayDone(gates: Gates, m: LevelMap, m': LevelMap, g: GateId, n: nat)
    requires g in gates && n < |gates[g].fanins| && Kept(m, m')
    requires forall j: nat | j < n :: FaninDone(gates, m, g, j)
    requires gates[g].fanins[n].gate in gates
    requires Recorded(gates[gates[g].fanins[n].gate].op) ==> Finished(m', gates[g].fanins[n].gate)
    ensures forall j: nat | j < n + 1 :: FaninDone(gates, m', g, j)
  {
    forall j: nat | j < n + 1
      ensures FaninDone(gates, m', g, j)
    {
      assert j < n ==> FaninDone(gates, m, g, j);
    }
  }

  lemma NotMarked(gates: Gates, m: LevelMap, stack: seq<GateId>, g: GateId)
    requires StackOk(gates, m, stack) && g !in m
    ensures g !in stack
  {
  }

  lemma TopIsMarked(gates: Gates, m: LevelMap, stack: seq<GateId>, g: GateId)
    requires StackOk(gates, m, stack + [g])
    ensures g in m && !Finished(m, g)
  {
    assert g in stack + [g];
  }

  /** Only sources have depth 0. */
  lemma NoDepth(gates: Gates, g: GateId)
    requires HasFanins(gates) && g in gates && IsDepth(gates, g, 0)
    ensures IsSource(gates[g].op)
  {
    if !IsSource(gates[g].op) {
      var f := gates[g].fanins[0].gate;
      assert IsFanin(gates, g, f);
      assert IsBackPath(gates, [g, f]);
      DepthBounds(gates, g, 0, [g, f]);
    }
  }

  lemma SomeDepth(gates: Gates, g: GateId, d: int)
    requires HasFanins(gates) && g in gates && IsDepth(gates, g, d) && (d != 0 || gates[g].op == CONST)
    ensures Recorded(gates[g].op)
  {
    if d > 0 {
      var p :| StartsAt(gates, p, g) && |p| == d + 1;
      assert IsFanin(gates, p[0], p[0 + 1]);
    }
  }

  lemma MarkedIsCycle(gates: Gates, m: LevelMap, stack: seq<GateId>, g: GateId)
    requires StackOk(gates, m, stack) && g in m && m[g] == VISITING
    requires stack != [] ==> IsFanin(gates, stack[|stack| - 1], g)
    ensures CycleReachable(gates, (stack + [g])[0])
  {
    var i :| 0 <= i < |stack| && stack[i] == g;
    assert IsBackPath(gates, [g]);
    PathAppend(gates, stack, [g]);
    var p := stack + [g];
    assert p[i] == p[|stack|];
    assert StartsAt(gates, p, p[0]) && Repeats(p);
  }

  lemma EntryOf(gates: Gates, m: LevelMap, g: GateId)
    requires EntriesOk(gates, m) && g in m && m[g] != VISITING
    ensures Finished(m, g) && IsDepth(gates, g, m[g])
  {
    assert EntryOk(gates, m, g);
  }

  lemma NoneDeepest(gates: Gates, g: GateId)
    requires g in gates
    ensures IsDeepest(gates, g, 0, -1)
  {
  }

  lemma FaninsAreGates(gates: Gates, g: GateId, i: nat)
    requires HasFanins(gates) && g in gates && i < |gates[g].fanins|
    ensures gates[g].fanins[i].gate in gates && IsFanin(gates, g, gates[g].fanins[i].gate)
    ensures Recorded(gates[g].op)
  {
  }
}
