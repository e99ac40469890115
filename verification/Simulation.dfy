/** Simulation of a Boolean circuit level by level. */
module Simulation {
  import opened GateGraph
  import opened BooleanCircuit
  import opened LevelSearch
  import opened Bins

  /** The constant gates and the linked lists of a simple_circuitt; listed are the gates of gates_HEAD. */
  datatype Lists = Lists(one: GateId, zero: GateId, inputs: seq<GateId>, listed: seq<GateId>)

  predicate IsLogic(op: Op) { op == AND || op == OR || op == XOR || op == NOT }

  ghost predicate ListsOk(gates: Gates, l: Lists) {
    && IsBoolean(gates)
    && l.one in gates && gates[l.one].op == ONE
    && l.zero in gates && gates[l.zero].op == NOT && gates[l.zero].fanins[0].gate == l.one
    && (forall g :: g in l.inputs <==> g in gates && gates[g].op == INPUT)
    && (forall g :: g in l.listed <==> g in gates && IsLogic(gates[g].op) && g != l.zero)
    && (forall g | g in gates && gates[g].op == ONE :: g == l.one)
    && NoDuplicates(l.listed)
  }

  /** timeout_datat: once the time is over it stays over. */
  class Clock {
    const checkTimeout: bool
    var stopped: bool

    constructor (checkTimeout: bool)
      ensures !stopped && this.checkTimeout == checkTimeout
    {
      this.checkTimeout := checkTimeout;
      stopped := false;
    }

    method Timeout() returns (over: bool)
      modifies this
      ensures over == stopped && (old(stopped) ==> stopped) && (!checkTimeout ==> stopped == old(stopped))
    {
      if !stopped && checkTimeout {
        stopped := *;
      }
      over := stopped;
    }
  }

  ghost predicate AgreesWith(v: Valuation, m: Interpretation) {
    forall g | g in m :: m[g] == v(g)
  }

  /** Levels as a finished search leaves them. */
  ghost predicate LevelsOk(gates: Gates, levels: LevelMap, sets: LevelSet) {
    && EntriesOk(gates, levels) && SetOk(gates, levels, sets)
    && forall g | g in levels :: Finished(levels, g)
  }

  lemma BooleanHasFanins(gates: Gates)
    requires IsBoolean(gates)
    ensures HasFanins(gates)
  {
    forall g, i: nat | g in gates && i < |gates[g].fanins|
      ensures gates[g].fanins[i].gate in gates
    {
      assert FaninMirrored(gates, g, i);
    }
  }

  function ValueOf(gates: Gates, m: Interpretation, g: GateId): (b: bool)
    requires g in gates && IsLogic(gates[g].op) && |gates[g].fanins| == Arity(gates[g].op)
    requires forall i | 0 <= i < |gates[g].fanins| :: gates[g].fanins[i].gate in m
  {
    var x := m[gates[g].fanins[0].gate];
    if gates[g].op == NOT then !x
    else
      var y := m[gates[g].fanins[1].gate];
      if gates[g].op == AND then x && y
      else if gates[g].op == OR then x || y
      else x != y
  }

  lemma ValueIsConsistent(gates: Gates, v: Valuation, m: Interpretation, g: GateId)
    requires IsBoolean(gates) && Consistent(gates, v) && AgreesWith(v, m) && g in gates && IsLogic(gates[g].op)
    requires |gates[g].fanins| == Arity(gates[g].op)
    requires forall i | 0 <= i < |gates[g].fanins| :: gates[g].fanins[i].gate in m
    ensures ValueOf(gates, m, g) == v(g)
  {
    GateOf(gates, v, g);
  }

  /** Everything below the level has a value. */
  ghost predicate DoneBelow(levels: LevelMap, m: Interpretation, level: int) {
    forall g | Finished(levels, g) && levels[g] < level :: g in m
  }

  ghost predicate SourcesIn(l: Lists, m: Interpretation) {
    l.one in m && l.zero in m && forall g | g in l.inputs :: g in m
  }

  lemma LevelIsLogic(gates: Gates, l: Lists, levels: LevelMap, sets: LevelSet, level: nat, g: GateId)
    requires ListsOk(gates, l) && LevelsOk(gates, levels, sets) && level in sets && g in sets[level].gates
    requires forall h | h in levels :: gates[h].op != OUTPUT
    ensures g in gates && IsLogic(gates[g].op) && Finished(levels, g) && levels[g] == level
    ensures |gates[g].fanins| == Arity(gates[g].op)
  {
    assert InSet(sets, level, g);
    assert EntryOk(gates, levels, g);
    assert GateIsBoolean(gates[g]);
  }

  lemma FaninsDone(gates: Gates, l: Lists, levels: LevelMap, sets: LevelSet, level: int, g: GateId, m: Interpretation)
    requires ListsOk(gates, l) && LevelsOk(gates, levels, sets) && Finished(levels, g) && levels[g] == level
    requires g in gates && DoneBelow(levels, m, level) && SourcesIn(l, m)
    ensures forall i | 0 <= i < |gates[g].fanins| :: gates[g].fanins[i].gate in m
  {
    hide IsDepth, SetOk, IsBoolean;
    assert EntryOk(gates, levels, g);
    forall i: nat | i < |gates[g].fanins|
      ensures gates[g].fanins[i].gate in m
    {
      assert FaninDone(gates, levels, g, i);
      var f := gates[g].fanins[i].gate;
      if Recorded(gates[f].op) {
        assert EntryOk(gates, levels, f);
        assert IsFanin(gates, g, f);
        FaninIsLessDeep(gates, g, f, levels[f], levels[g]);
      } else {
        SourceIsListed(gates, l, f);
      }
    }
  }

  lemma SourceIsListed(gates: Gates, l: Lists, f: GateId)
    requires ListsOk(gates, l) && f in gates && !Recorded(gates[f].op)
    ensures f in l.inputs || f == l.one
  {
  }

  // ----- the levels are 1, 2, ..., without gaps -----

  lemma GateBelow(gates: Gates, levels: LevelMap, g: GateId, d: int) returns (f: GateId)
    requires EntriesOk(gates, levels) && Finished(levels, g) && levels[g] == d && d > 1
    requires HasFanins(gates)
    ensures Finished(levels, f) && levels[f] == d - 1
  {
    assert EntryOk(gates, levels, g);
    var p :| StartsAt(gates, p, g) && |p| == d + 1;
    f := p[1];
    assert IsFanin(gates, p[0], p[0 + 1]);
    var i: nat :| i < |gates[g].fanins| && gates[g].fanins[i].gate == f;
    assert FaninDone(gates, levels, g, i);
    PathPart(gates, p, 1, |p|);
    assert StartsAt(gates, p[1..], f);
    assert IsFanin(gates, p[1], p[1 + 1]);
    assert Recorded(gates[f].op);
    assert EntryOk(gates, levels, f);
    DepthBounds(gates, f, levels[f], p[1..]);
    FaninIsLessDeep(gates, g, f, levels[f], d);
  }

  ghost predicate HasLevel(levels: LevelMap, d: int) {
    exists g :: Finished(levels, g) && levels[g] == d
  }

  lemma {:induction false} LowerLevels(gates: Gates, levels: LevelMap, d: nat, e: nat)
    requires EntriesOk(gates, levels) && HasFanins(gates) && HasLevel(levels, d) && 1 <= e <= d
    ensures HasLevel(levels, e)
    decreases d
  {
    if e < d {
      var g :| Finished(levels, g) && levels[g] == d;
      var f := GateBelow(gates, levels, g, d);
      LowerLevels(gates, levels, d - 1, e);
    }
  }

  ghost function Range(n: nat): (s: set<nat>)
    ensures forall d: nat :: d in s <==> 1 <= d <= n
  {
    if n == 0 then {} else Range(n - 1) + {n}
  }

  ghost predicate IsClosed(s: set<nat>) {
    (forall d | d in s :: 1 <= d) && forall d: nat, e: nat | d in s && 1 <= e <= d :: e in s
  }

  lemma {:induction false} ClosedBelow(s: set<nat>, n: nat)
    requires IsClosed(s) && |s| == n
    ensures s == Range(n)
    decreases n
  {
    if n == 0 {
      assert s == {};
    } else {
      var top := Top(s);
      WithoutTop(s, top);
      ClosedBelow(s - {top}, n - 1);
      LargerIn(s, n, top);
      assert top == n;
      assert s == (s - {top}) + {top};
    }
  }

  lemma WithoutTop(s: set<nat>, top: nat)
    requires IsClosed(s) && top in s && forall d | d in s :: d <= top
    ensures IsClosed(s - {top})
  {
  }

  lemma LargerIn(s: set<nat>, n: nat, top: nat)
    requires IsClosed(s) && top in s && n > 0 && s - {top} == Range(n - 1)
    ensures top == n
  {
    assert top in Range(n - 1) <==> 1 <= top <= n - 1;
    assert n in s - {top} <==> n in Range(n - 1);
  }

  lemma {:induction false} Top(s: set<nat>) returns (top: nat)
    requires s != {}
    ensures top in s && forall d | d in s :: d <= top
    decreases |s|
  {
    var t :| t in s;
    top := t;
    if s != {t} {
      var other := Top(s - {t});
      top := if t < other then other else t;
      assert forall d | d in s :: d == t || d in s - {t};
    }
  }

  /** The search records exactly the levels 1 to level_set.size() in a circuit without CONST gates. */
  lemma LevelsHaveNoGaps(gates: Gates, levels: LevelMap, sets: LevelSet)
    requires IsBoolean(gates) && LevelsOk(gates, levels, sets)
    ensures sets.Keys == Range(|sets|)
  {
    BooleanHasFanins(gates);
    var s := sets.Keys;
    forall d | d in s
      ensures 1 <= d && HasLevel(levels, d)
    {
      var g :| g in sets[d].gates;
      assert InSet(sets, d, g);
      assert EntryOk(gates, levels, g);
      PositiveDepth(gates, g, d);
    }
    forall d: nat, e: nat | d in s && 1 <= e <= d
      ensures e in s
    {
      assert 1 <= d && HasLevel(levels, d);
      LowerLevels(gates, levels, d, e);
      var f :| Finished(levels, f) && levels[f] == e;
      assert InSet(sets, e, f);
    }
    ClosedBelow(s, |s|);
    assert |s| == |sets|;
  }

  lemma PositiveDepth(gates: Gates, g: GateId, d: int)
    requires IsBoolean(gates) && HasFanins(gates) && g in gates && IsDepth(gates, g, d) && Recorded(gates[g].op)
    ensures 1 <= d
  {
    if d == 0 {
      NoDepth(gates, g);
    }
  }

  // ----- the code -----

  /** simulate_2, and simulate if the clock never stops: every gate gets its value under the inputs in start. */
  method Simulate(gates: Gates, l: Lists, ghost levels: LevelMap, sets: LevelSet, start: Interpretation,
                  clock: Clock, ghost v: Valuation)
    returns (m: Interpretation)
    requires ListsOk(gates, l) && LevelsOk(gates, levels, sets)
    requires forall h | h in levels :: gates[h].op != OUTPUT
    requires forall g | g in l.listed :: Finished(levels, g)
    requires SourcesIn(l, start) && Consistent(gates, v) && AgreesWith(v, start)
    modifies clock
    ensures old(clock.stopped) ==> clock.stopped
    ensures !clock.checkTimeout ==> clock.stopped == old(clock.stopped)
    ensures AgreesWith(v, m) && start.Keys <= m.Keys
    ensures clock.stopped || forall g | g in l.listed :: g in m
  {
    hide ListsOk, LevelsOk, Consistent, IsBoolean;
    m := start;
    assert IsBoolean(gates) by { ListsAreBoolean(gates, l); }
    LevelsHaveNoGaps(gates, levels, sets);
    NothingBelow(gates, levels, sets, m);
    var i := 1;
    while i <= |sets|
      invariant 1 <= i <= |sets| + 1 && start.Keys <= m.Keys && AgreesWith(v, m)
      invariant old(clock.stopped) ==> clock.stopped
      invariant !clock.checkTimeout ==> clock.stopped == old(clock.stopped)
      invariant clock.stopped || DoneBelow(levels, m, i)
    {
      var over := clock.Timeout();
      if over { return; }
      assert i in sets.Keys;
      m := SimulateLevel(gates, l, levels, sets, m, i, clock, v);
      i := i + 1;
    }
    AllBelow(gates, levels, sets, m, i);
  }

  method SimulateLevel(gates: Gates, l: Lists, ghost levels: LevelMap, sets: LevelSet, m0: Interpretation, i: nat,
                       clock: Clock, ghost v: Valuation)
    returns (m: Interpretation)
    requires ListsOk(gates, l) && LevelsOk(gates, levels, sets) && i in sets && !clock.stopped
    requires forall h | h in levels :: gates[h].op != OUTPUT
    requires SourcesIn(l, m0) && DoneBelow(levels, m0, i) && Consistent(gates, v) && AgreesWith(v, m0)
    modifies clock
    ensures !clock.checkTimeout ==> !clock.stopped
    ensures AgreesWith(v, m) && m0.Keys <= m.Keys
    ensures clock.stopped || DoneBelow(levels, m, i + 1)
  {
    hide ListsOk, LevelsOk, Consistent, IsBoolean;
    m := m0;
    var todo := sets[i].gates;
    while todo != {}
      invariant todo <= sets[i].gates && m0.Keys <= m.Keys && AgreesWith(v, m) && SourcesIn(l, m)
      invariant DoneBelow(levels, m, i) && forall g | g in sets[i].gates && g !in todo :: g in m
      invariant !clock.stopped
      decreases todo
    {
      var over := clock.Timeout();
      if over { return; }
      var g :| g in todo;
      LevelIsLogic(gates, l, levels, sets, i, g);
      FaninsDone(gates, l, levels, sets, i, g, m);
      ListsAreBoolean(gates, l);
      ValueIsConsistent(gates, v, m, g);
      m := m[g := ValueOf(gates, m, g)];
      todo := todo - {g};
    }
    LevelDone(gates, levels, sets, m, i);
  }

  lemma ListsAreBoolean(gates: Gates, l: Lists)
    requires ListsOk(gates, l)
    ensures IsBoolean(gates)
  {
  }

  lemma NothingBelow(gates: Gates, levels: LevelMap, sets: LevelSet, m: Interpretation)
    requires LevelsOk(gates, levels, sets) && sets.Keys == Range(|sets|)
    ensures DoneBelow(levels, m, 1)
  {
    forall g | Finished(levels, g)
      ensures levels[g] >= 1
    {
      assert InSet(sets, levels[g], g);
      assert levels[g] in Range(|sets|);
    }
  }

  lemma AllBelow(gates: Gates, levels: LevelMap, sets: LevelSet, m: Interpretation, i: nat)
    requires LevelsOk(gates, levels, sets) && sets.Keys == Range(|sets|) && i == |sets| + 1
    ensures DoneBelow(levels, m, i) ==> forall g | Finished(levels, g) :: g in m
  {
    forall g | Finished(levels, g)
      ensures levels[g] < i
    {
      assert InSet(sets, levels[g], g);
      assert levels[g] in Range(|sets|);
    }
  }

  lemma LevelDone(gates: Gates, levels: LevelMap, sets: LevelSet, m: Interpretation, i: nat)
    requires LevelsOk(gates, levels, sets) && i in sets && DoneBelow(levels, m, i)
    requires forall g | g in sets[i].gates :: g in m
    ensures DoneBelow(levels, m, i + 1)
  {
    forall g | Finished(levels, g) && levels[g] < i + 1
      ensures g in m
    {
      if levels[g] == i {
        assert InSet(sets, i, g);
      }
    }
  }
}
