/** The levels computed at the start of a SAT-sweeping pass, as a numbering of all gates. */
module SweepLevels {
  import opened GateGraph
  import opened BooleanCircuit
  import opened LevelSearch
  import opened Bins
  import opened Simulation

  /** Levels of all listed gates, as the search leaves them. */
  ghost predicate Searched(gates: Gates, l: Lists, levels: LevelMap) {
    && EntriesOk(gates, levels) && (forall g | g in levels :: Finished(levels, g))
    && (forall g | g in l.listed :: Finished(levels, g))
    && VisitedOk(gates, levels, set g | g in l.listed)
  }

  /** OUTPUTs are above everything; a constant gate that no listed gate uses has no recorded level. */
  ghost function LevelOf(gates: Gates, l: Lists, levels: LevelMap, top: nat): (rank: GateId -> nat) {
    (g: GateId) =>
      if g in levels then (if 0 <= levels[g] then levels[g] else 0)
      else if g in gates && gates[g].op == OUTPUT then top
      else if g == l.zero then 1
      else 0
  }

  ghost predicate BelowTop(levels: LevelMap, top: nat) {
    1 < top && forall g | g in levels :: levels[g] < top
  }

  lemma {:induction false} TopExists(levels: LevelMap) returns (top: nat)
    ensures BelowTop(levels, top)
    decreases |levels|
  {
    if levels == map[] {
      top := 2;
    } else {
      var g :| g in levels;
      var rest := map h | h in levels && h != g :: levels[h];
      assert rest.Keys == levels.Keys - {g};
      assert |rest| < |levels| by {
        assert |rest.Keys| < |levels.Keys|;
      }
      top := TopExists(rest);
      if top <= levels[g] {
        top := levels[g] + 1;
      }
      assert forall h | h in levels :: h == g || h in rest;
    }
  }

  lemma OutputsFeedNothing(gates: Gates, g: GateId)
    requires IsBoolean(gates) && FeedsSomething(gates, g)
    ensures g in gates && gates[g].op != OUTPUT
  {
    var h :| IsFanin(gates, h, g);
    var i: nat :| i < |gates[h].fanins| && gates[h].fanins[i].gate == g;
    assert FaninMirrored(gates, h, i);
    assert GateIsBoolean(gates[g]);
  }

  lemma SearchedGate(gates: Gates, l: Lists, levels: LevelMap, g: GateId)
    requires ListsOk(gates, l) && Searched(gates, l, levels) && g in levels
    ensures EntryOk(gates, levels, g) && gates[g].op != OUTPUT && IsLogic(gates[g].op) && 1 <= levels[g]
  {
    hide IsDepth;
    assert EntryOk(gates, levels, g);
    if g !in l.listed {
      OutputsFeedNothing(gates, g);
    }
    assert GateIsBoolean(gates[g]);
    BooleanHasFanins(gates);
    PositiveDepth(gates, g, levels[g]);
  }

  /** Every wire goes up. */
  lemma LevelsRise(gates: Gates, l: Lists, levels: LevelMap, top: nat)
    requires ListsOk(gates, l) && Searched(gates, l, levels) && BelowTop(levels, top)
    ensures Ranked(gates, LevelOf(gates, l, levels, top))
  {
    hide IsDepth, ListsOk, Searched;
    var rank := LevelOf(gates, l, levels, top);
    forall g, w | g in gates && w in gates[g].fanins
      ensures w.gate in gates && rank(w.gate) < rank(g)
    {
      var i: nat :| i < |gates[g].fanins| && gates[g].fanins[i] == w;
      WireRises(gates, l, levels, top, g, i);
    }
  }

  lemma WireRises(gates: Gates, l: Lists, levels: LevelMap, top: nat, g: GateId, i: nat)
    requires ListsOk(gates, l) && Searched(gates, l, levels) && BelowTop(levels, top)
    requires g in gates && i < |gates[g].fanins|
    ensures var rank, f := LevelOf(gates, l, levels, top), gates[g].fanins[i].gate;
            f in gates && rank(f) < rank(g)
  {
    hide IsDepth, Searched, Mirrored;
    var f := gates[g].fanins[i].gate;
    FaninFeeds(gates, g, i);
    OutputsFeedNothing(gates, f);
    if f in levels { SearchedGate(gates, l, levels, f); }
    if g in levels {
      SearchedGate(gates, l, levels, g);
      assert FaninDone(gates, levels, g, i);
      if Recorded(gates[f].op) {
        FaninIsLessDeep(gates, g, f, levels[f], levels[g]);
      } else {
        assert f != l.zero;
      }
    } else if gates[g].op != OUTPUT {
      assert GateIsBoolean(gates[g]);
      ListedAreSearched(gates, l, levels, g);
      OneHasNoLevel(gates, l, levels);
    }
  }

  lemma FaninFeeds(gates: Gates, g: GateId, i: nat)
    requires IsBoolean(gates) && g in gates && i < |gates[g].fanins|
    ensures IsFanin(gates, g, gates[g].fanins[i].gate) && FeedsSomething(gates, gates[g].fanins[i].gate)
  {
    assert FaninMirrored(gates, g, i);
    assert IsFanin(gates, g, gates[g].fanins[i].gate);
  }

  /** The only gate that may have no level although it has fanins and is no OUTPUT. */
  lemma ListedAreSearched(gates: Gates, l: Lists, levels: LevelMap, g: GateId)
    requires ListsOk(gates, l) && Searched(gates, l, levels) && g in gates && g !in levels
    requires gates[g].op != OUTPUT && gates[g].fanins != []
    ensures g == l.zero && gates[g].fanins[0].gate == l.one && |gates[g].fanins| == 1
  {
    hide EntriesOk, VisitedOk, Mirrored;
    assert GateIsBoolean(gates[g]);
  }

  lemma OneHasNoLevel(gates: Gates, l: Lists, levels: LevelMap)
    requires ListsOk(gates, l) && Searched(gates, l, levels)
    ensures l.one !in levels && l.one != l.zero
  {
    hide IsDepth, VisitedOk, Mirrored;
    if l.one in levels {
      SearchedGate(gates, l, levels, l.one);
    }
  }

  /** ZERO is never above a listed gate. */
  lemma ZeroIsLow(gates: Gates, l: Lists, levels: LevelMap, top: nat)
    requires ListsOk(gates, l) && Searched(gates, l, levels) && BelowTop(levels, top)
    ensures LevelOf(gates, l, levels, top)(l.zero) == 1
  {
    hide Mirrored, Searched, StartsAt;
    if l.zero in levels {
      SearchedGate(gates, l, levels, l.zero);
      DepthHasPath(gates, l.zero, levels[l.zero]);
      var p :| StartsAt(gates, p, l.zero) && |p| == levels[l.zero] + 1;
      PathsFromZero(gates, l, p);
    }
  }

  lemma PathsFromZero(gates: Gates, l: Lists, p: seq<GateId>)
    requires ListsOk(gates, l) && StartsAt(gates, p, l.zero)
    ensures |p| <= 2
  {
    hide Mirrored;
    assert GateIsBoolean(gates[l.zero]) && GateIsBoolean(gates[l.one]);
    assert |p| > 1 ==> IsFanin(gates, p[0], p[0 + 1]);
    assert |p| > 2 ==> IsFanin(gates, p[1], p[1 + 1]);
  }

  lemma ListedLevel(gates: Gates, l: Lists, levels: LevelMap, top: nat, g: GateId)
    requires ListsOk(gates, l) && Searched(gates, l, levels) && g in l.listed
    ensures g in gates && g in levels && 1 <= levels[g] && LevelOf(gates, l, levels, top)(g) == levels[g]
  {
    hide IsDepth, ListsOk;
    SearchedGate(gates, l, levels, g);
  }

  /** A numbering along the wires bounds all paths: nothing is deeper than its number. */
  lemma {:induction false} RankBoundsPaths(gates: Gates, rank: GateId -> nat, p: seq<GateId>)
    requires Ranked(gates, rank) && IsBackPath(gates, p)
    ensures |p| <= rank(p[0]) + 1
    decreases |p|
  {
    if |p| > 1 {
      assert IsFanin(gates, p[0], p[0 + 1]);
      var i: nat :| i < |gates[p[0]].fanins| && gates[p[0]].fanins[i].gate == p[1];
      FaninOf(gates, rank, p[0], i);
      PathPart(gates, p, 1, |p|);
      RankBoundsPaths(gates, rank, p[1..]);
    }
  }

  // ----- the values that an interpretation gives the gates -----

  /** The valuation under the inputs in m. */
  ghost function Meaning(gates: Gates, rank: GateId -> nat, m: Interpretation): (v: Valuation)
    requires IsBoolean(gates) && Ranked(gates, rank)
  {
    ValuationOf(gates, rank, (g: GateId) => g in m && m[g])
  }

  /** An interpretation as the sweep stores it: values for the inputs, and the constants. */
  ghost predicate IsStart(gates: Gates, l: Lists, m: Interpretation) {
    && SourcesIn(l, m) && m[l.one] && !m[l.zero]
    && forall g | g in m :: g in l.inputs || g == l.one || g == l.zero
  }

  lemma StartAgrees(gates: Gates, l: Lists, rank: GateId -> nat, m: Interpretation)
    requires ListsOk(gates, l) && Ranked(gates, rank) && IsStart(gates, l, m)
    ensures Consistent(gates, Meaning(gates, rank, m)) && AgreesWith(Meaning(gates, rank, m), m)
  {
    hide Mirrored;
    var v := Meaning(gates, rank, m);
    ValuationExists(gates, rank, (g: GateId) => g in m && m[g]);
    assert Holds(gates[l.one], l.one, v) && Holds(gates[l.zero], l.zero, v);
  }
}
