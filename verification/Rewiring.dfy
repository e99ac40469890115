/** add_fanout, remove_fanin and replace_by on the linked gates of a circuit. */
module Rewiring {
  import opened GateGraph
  import opened BooleanCircuit
  import opened Simulation

  /** The fanouts without the first one that goes to the target. */
  ghost function EraseFirst(fanouts: seq<Fanout>, target: Wire): (s: seq<Fanout>) {
    if fanouts == [] then []
    else if fanouts[0].target == target then fanouts[1..]
    else [fanouts[0]] + EraseFirst(fanouts[1..], target)
  }

  lemma {:induction false} FirstAt(fanouts: seq<Fanout>, target: Wire, i: nat)
    requires i <= |fanouts| && forall k | 0 <= k < i :: fanouts[k].target != target
    requires i < |fanouts| ==> fanouts[i].target == target
    ensures EraseFirst(fanouts, target) == if i < |fanouts| then fanouts[..i] + fanouts[i + 1..] else fanouts
    decreases i
  {
    if i > 0 {
      FirstAt(fanouts[1..], target, i - 1);
    }
  }

  /** The first i fanouts of a have moved to b. */
  ghost predicate InProgress(before: Gates, gates: Gates, a: GateId, b: GateId, i: nat)
    requires a in before && b in before && i <= |before[a].fanouts|
  {
    && gates.Keys == before.Keys
    && (forall g | g in before :: GateInProgress(before, gates, a, b, i, g))
    && gates[a].fanouts == before[a].fanouts[i..]
    && gates[b].fanouts == before[b].fanouts + before[a].fanouts[..i]
  }

  ghost predicate GateInProgress(before: Gates, gates: Gates, a: GateId, b: GateId, i: nat, g: GateId)
    requires a in before && i <= |before[a].fanouts| && g in before && g in gates
  {
    && gates[g].op == before[g].op && gates[g].width == before[g].width && gates[g].value == before[g].value
    && (g != a && g != b ==> gates[g].fanouts == before[g].fanouts)
    && |gates[g].fanins| == |before[g].fanins|
    && forall j: nat | j < |before[g].fanins| :: SlotInProgress(before, gates, a, b, i, g, j)
  }

  ghost predicate IsMoved(before: Gates, a: GateId, i: nat, g: GateId, j: nat)
    requires a in before && i <= |before[a].fanouts|
  {
    exists k :: 0 <= k < i && before[a].fanouts[k].target == Wire(g, j)
  }

  ghost predicate SlotInProgress(before: Gates, gates: Gates, a: GateId, b: GateId, i: nat, g: GateId, j: nat)
    requires a in before && i <= |before[a].fanouts| && g in before && g in gates
    requires j < |before[g].fanins| && j < |gates[g].fanins|
  {
    gates[g].fanins[j]
    == if IsMoved(before, a, i, g, j) then Wire(b, before[g].fanins[j].pin) else before[g].fanins[j]
  }

  lemma NothingMoved(gates: Gates, a: GateId, b: GateId)
    requires a in gates && b in gates
    ensures InProgress(gates, gates, a, b, 0)
  {
  }

  lemma TargetsDiffer(gates: Gates, a: GateId, k: nat, i: nat)
    requires Mirrored(gates) && a in gates && k < i < |gates[a].fanouts|
    ensures gates[a].fanouts[k].target != gates[a].fanouts[i].target
  {
    assert FanoutMirrored(gates, a, k) && FanoutMirrored(gates, a, i);
    assert NoDuplicates(gates[a].fanouts);
  }

  /** The next fanout's slot still holds a's wire. */
  lemma NextSlot(before: Gates, gates: Gates, a: GateId, b: GateId, i: nat)
    requires Mirrored(before) && a in before && b in before && a != b && i < |before[a].fanouts|
    requires InProgress(before, gates, a, b, i)
    ensures gates[a].fanouts != [] && gates[a].fanouts[0] == before[a].fanouts[i]
    ensures var e := before[a].fanouts[i];
            e.target.gate in gates && e.target.pin < |gates[e.target.gate].fanins|
            && gates[e.target.gate].fanins[e.target.pin] == Wire(a, e.pin)
            && before[e.target.gate].fanins[e.target.pin] == Wire(a, e.pin)
  {
    var e := before[a].fanouts[i];
    var t := e.target;
    assert FanoutMirrored(before, a, i);
    assert GateInProgress(before, gates, a, b, i, t.gate);
    assert SlotInProgress(before, gates, a, b, i, t.gate, t.pin);
    forall k: nat | k < i
      ensures before[a].fanouts[k].target != t
    {
      TargetsDiffer(before, a, k, i);
    }
  }

  ghost function Disconnected(gates: Gates, a: GateId): (gates': Gates)
    requires a in gates && gates[a].fanouts != []
  {
    gates[a := gates[a].(fanouts := gates[a].fanouts[1..])]
  }

  lemma MoveOne(before: Gates, gates: Gates, a: GateId, b: GateId, i: nat)
    requires Mirrored(before) && a in before && b in before && a != b && i < |before[a].fanouts|
    requires InProgress(before, gates, a, b, i)
    requires gates[a].fanouts != []
    requires var e := before[a].fanouts[i]; e.target.gate in gates && e.target.pin < |gates[e.target.gate].fanins|
    ensures var e := before[a].fanouts[i];
            InProgress(before, Connected(Disconnected(gates, a), b, e.pin, e.target), a, b, i + 1)
  {
    NextSlot(before, gates, a, b, i);
    hide IsMoved, Connected, Disconnected, Mirrored;
    var e, n := before[a].fanouts[i], i + 1;
    var gates' := Connected(Disconnected(gates, a), b, e.pin, e.target);
    MovedEnds(gates, a, b, e);
    forall g | g in before
      ensures GateInProgress(before, gates', a, b, n, g)
    {
      assert GateInProgress(before, gates, a, b, i, g);
      MovedGate(gates, a, b, e, g);
      forall j: nat | j < |before[g].fanins|
        ensures SlotInProgress(before, gates', a, b, n, g, j)
      {
        assert SlotInProgress(before, gates, a, b, i, g, j);
        NowMoved(before, a, i, g, j);
      }
    }
  }

  /** Moving one fanout changes the two ends of one wire and nothing else. */
  lemma MovedEnds(gates: Gates, a: GateId, b: GateId, e: Fanout)
    requires a in gates && b in gates && a != b && gates[a].fanouts != []
    requires e.target.gate in gates && e.target.pin < |gates[e.target.gate].fanins|
    ensures var gates' := Connected(Disconnected(gates, a), b, e.pin, e.target);
            && gates'.Keys == gates.Keys && gates'[a].fanouts == gates[a].fanouts[1..]
            && gates'[b].fanouts == gates[b].fanouts + [Fanout(e.pin, e.target)]
  {
  }

  lemma MovedGate(gates: Gates, a: GateId, b: GateId, e: Fanout, g: GateId)
    requires a in gates && b in gates && a != b && gates[a].fanouts != [] && g in gates
    requires e.target.gate in gates && e.target.pin < |gates[e.target.gate].fanins|
    ensures var gates' := Connected(Disconnected(gates, a), b, e.pin, e.target);
            && g in gates'
            && gates'[g].op == gates[g].op && gates'[g].width == gates[g].width && gates'[g].value == gates[g].value
            && (g != a && g != b ==> gates'[g].fanouts == gates[g].fanouts)
            && |gates'[g].fanins| == |gates[g].fanins|
            && forall j: nat | j < |gates[g].fanins| ::
                 gates'[g].fanins[j] == if Wire(g, j) == e.target then Wire(b, e.pin) else gates[g].fanins[j]
  {
  }

  lemma NowMoved(before: Gates, a: GateId, i: nat, g: GateId, j: nat)
    requires a in before && i < |before[a].fanouts|
    ensures IsMoved(before, a, i + 1, g, j) <==> IsMoved(before, a, i, g, j) || before[a].fanouts[i].target == Wire(g, j)
  {
  }

  /** When all fanouts have moved, exactly a's wires come from b. */
  lemma AllMoved(before: Gates, gates: Gates, a: GateId, b: GateId)
    requires Mirrored(before) && a in before && b in before && a != b
    requires InProgress(before, gates, a, b, |before[a].fanouts|)
    ensures IsReplaced(before, gates, a, b)
  {
    var n := |before[a].fanouts|;
    forall g | g in before
      ensures ReplacedAt(before, gates, a, b, g)
    {
      assert GateInProgress(before, gates, a, b, n, g);
      forall j | 0 <= j < |before[g].fanins|
        ensures gates[g].fanins[j] == Redirect(before[g].fanins[j], a, b)
      {
        assert SlotInProgress(before, gates, a, b, n, g, j);
        assert FaninMirrored(before, g, j);
        if IsMoved(before, a, n, g, j) {
          var k :| 0 <= k < n && before[a].fanouts[k].target == Wire(g, j);
          assert FanoutMirrored(before, a, k);
        }
      }
      assert gates[g].fanins == RedirectAll(before[g].fanins, a, b);
    }
    assert gates[b].fanouts == before[b].fanouts + before[a].fanouts;
  }

  class SimpleCircuit {
    const lists: Lists
    var gates: Gates

    constructor (gates: Gates, lists: Lists)
      ensures this.gates == gates && this.lists == lists
    {
      this.gates := gates;
      this.lists := lists;
    }

    /** remove_fanin; the slot keeps its old content, instead of a null pointer, until it is filled again. */
    method RemoveFanin(t: GateId, index: nat)
      requires t in gates && index < |gates[t].fanins| && gates[t].fanins[index].gate in gates
      requires gates[gates[t].fanins[index].gate].fanouts != []
      modifies this
      ensures var f := old(gates)[t].fanins[index].gate;
              gates == old(gates)[f := old(gates)[f].(fanouts := EraseFirst(old(gates)[f].fanouts, Wire(t, index)))]
    {
      hide EraseFirst;
      var f := gates[t].fanins[index].gate;
      var fanouts := gates[f].fanouts;
      var i := 0;
      while i < |fanouts| && fanouts[i].target != Wire(t, index)
        invariant i <= |fanouts|
        invariant forall k | 0 <= k < i :: fanouts[k].target != Wire(t, index)
      {
        i := i + 1;
      }
      FirstAt(fanouts, Wire(t, index), i);
      if i < |fanouts| {
        gates := gates[f := gates[f].(fanouts := fanouts[..i] + fanouts[i + 1..])];
      }
    }

    method AddFanout(b: GateId, pin: nat, target: Wire)
      requires b in gates && target.gate in gates && target.pin < |gates[target.gate].fanins|
      modifies this
      ensures gates == Connected(old(gates), b, pin, target)
    {
      gates := ConnectPins(gates, b, pin, target);
    }

    /** replace_by: all fanouts of a move to b. */
    method ReplaceBy(a: GateId, b: GateId)
      requires Mirrored(gates) && a in gates && b in gates && a != b && gates[a].width == gates[b].width
      modifies this
      ensures IsReplaced(old(gates), gates, a, b)
    {
      hide Mirrored, InProgress, Connected, Disconnected;
      ghost var before := gates;
      ghost var i := 0;
      NothingMoved(gates, a, b);
      while gates[a].fanouts != []
        invariant a in gates && b in gates && i <= |before[a].fanouts|
        invariant InProgress(before, gates, a, b, i)
        invariant gates[a].fanouts == before[a].fanouts[i..]
        decreases |before[a].fanouts| - i
      {
        var fanout := gates[a].fanouts[0];
        NextSlot(before, gates, a, b, i);
        MoveOne(before, gates, a, b, i);
        FirstIsErased(gates, a, fanout);
        RemoveFanin(fanout.target.gate, fanout.target.pin);
        AddFanout(b, fanout.pin, fanout.target);
        i := i + 1;
        ProgressShape(before, gates, a, b, i);
      }
      AllMoved(before, gates, a, b);
    }
  }

  lemma FirstIsErased(gates: Gates, a: GateId, e: Fanout)
    requires a in gates && gates[a].fanouts != [] && gates[a].fanouts[0] == e
    ensures Disconnected(gates, a) == gates[a := gates[a].(fanouts := EraseFirst(gates[a].fanouts, e.target))]
  {
  }

  lemma ProgressShape(before: Gates, gates: Gates, a: GateId, b: GateId, i: nat)
    requires a in before && b in before && i <= |before[a].fanouts| && InProgress(before, gates, a, b, i)
    ensures a in gates && b in gates && gates[a].fanouts == before[a].fanouts[i..]
  {
  }
}
