/** The converter on a circuit that combines bits, adds, and splits the sum. */
module SharingExample {
  import opened Powers
  import opened Shifts
  import opened Words
  import opened GateGraph
  import opened PlainSimulation
  import opened AbyCircuit
  import opened Converter

  /** The bits 1 and 2 form the number 3, which is added to the input 4; the AND 7 is over the bits of the sum 5. */
  function GateAt(g: GateId): (gate: Gate) {
    match g
    case 1 => Gate(INPUT, 1, 0, [], [Fanout(0, Wire(3, 0))])
    case 2 => Gate(INPUT, 1, 0, [], [Fanout(0, Wire(3, 1))])
    case 3 => Gate(COMBINE, 2, 0, [Wire(1, 0), Wire(2, 0)], [Fanout(0, Wire(5, 0))])
    case 4 => Gate(INPUT, 2, 0, [], [Fanout(0, Wire(5, 1))])
    case 5 => Gate(ADD, 2, 0, [Wire(3, 0), Wire(4, 0)], [Fanout(0, Wire(6, 0)), Fanout(0, Wire(9, 0))])
    case 6 => Gate(SPLIT, 1, 0, [Wire(5, 0)], [Fanout(0, Wire(7, 0)), Fanout(1, Wire(7, 1))])
    case 7 => Gate(AND, 1, 0, [Wire(6, 0), Wire(6, 1)], [Fanout(0, Wire(8, 0))])
    case 8 => Gate(OUTPUT, 1, 0, [Wire(7, 0)], [])
    case _ => Gate(OUTPUT, 2, 0, [Wire(5, 0)], [])
  }

  const GATES: Gates := map g: GateId | 1 <= g <= 9 :: GateAt(g)

  const SHARINGS: Sharings := map[6 := YAO, 7 := YAO, 8 := YAO, 9 := ARITH]

  const PARTIES: map<GateId, Role> := map[1 := Client, 2 := Server, 4 := Client]

  ghost function Numbered(g: GateId): (n: nat) { g }

  function Inputs(x: nat, y: nat, n: nat): (inputs: map<GateId, nat>) { map[1 := x, 2 := y, 4 := n] }

  ghost function PlainOf(x: nat, y: nat, n: nat): (p: Plain) { Plain(GATES, Numbered, Inputs(x, y, n), 2) }

  lemma AllGates()
    ensures forall g: GateId | 1 <= g <= 9 :: g in GATES && GATES[g] == GateAt(g)
    ensures forall g | g in GATES :: 1 <= g <= 9
  {
  }

  lemma FaninIsMirrored(g: GateId, i: nat)
    requires 1 <= g <= 9 && i < |GateAt(g).fanins|
    ensures g in GATES && GATES[g] == GateAt(g) && FaninMirrored(GATES, g, i)
  {
    AllGates();
    hide GATES;
    var w := GateAt(g).fanins[i];
    var fanouts := GateAt(w.gate).fanouts;
    assert fanouts[if fanouts[0] == Fanout(w.pin, Wire(g, i)) then 0 else 1] == Fanout(w.pin, Wire(g, i));
  }

  lemma FanoutIsMirrored(g: GateId, i: nat)
    requires 1 <= g <= 9 && i < |GateAt(g).fanouts|
    ensures g in GATES && GATES[g] == GateAt(g) && FanoutMirrored(GATES, g, i)
  {
    AllGates();
    hide GATES;
  }

  lemma GatesAreMirrored()
    ensures Mirrored(GATES)
  {
    AllGates();
    hide GATES, FaninMirrored, FanoutMirrored;
    forall g, i: nat | g in GATES && i < |GATES[g].fanins|
      ensures FaninMirrored(GATES, g, i)
    {
      FaninIsMirrored(g, i);
    }
    forall g, i: nat | g in GATES && i < |GATES[g].fanouts|
      ensures FanoutMirrored(GATES, g, i)
    {
      FanoutIsMirrored(g, i);
    }
  }

  lemma GateFits(g: GateId, x: nat, y: nat, n: nat)
    requires 1 <= g <= 9 && x < 2 && y < 2 && n < 4
    ensures g in GATES && GATES[g] == GateAt(g) && GateTyped(GATES, 2, g) && InputTyped(PlainOf(x, y, n), g)
    ensures forall w | w in GateAt(g).fanins :: 1 <= w.gate < g
  {
    AllGates();
    assert Pow2(1) == 2 && Pow2(2) == 4;
    hide GATES, Pow2;
  }

  lemma GateIsShared(g: GateId, x: nat, y: nat, n: nat)
    requires 1 <= g <= 9
    ensures g in GATES && SharedGate(PlainOf(x, y, n), SHARINGS, g) && (GATES[g].op == INPUT ==> g in PARTIES)
  {
    AllGates();
    hide GATES;
  }

  /** The hypotheses on circuits that can be shared can be met. */
  lemma CircuitIsShared(x: nat, y: nat, n: nat)
    requires x < 2 && y < 2 && n < 4
    ensures WellShared(PlainOf(x, y, n), SHARINGS, PARTIES)
  {
    GatesAreMirrored();
    AllGates();
    hide GATES, Mirrored, GateTyped, InputTyped, SharedGate, GateAt;
    var p := PlainOf(x, y, n);
    forall g | g in GATES
      ensures GateTyped(p.gates, 2, g) && InputTyped(p, g)
      ensures forall w | w in GATES[g].fanins :: 1 <= w.gate < g
      ensures SharedGate(p, SHARINGS, g) && (GATES[g].op == INPUT ==> g in PARTIES)
    {
      GateFits(g, x, y, n);
      GateIsShared(g, x, y, n);
    }
    assert Ranked(p.gates, p.rank) && PlainOk(p);
  }

  /** The conversion goes through, and its wires carry what simulate computes. */
  method ConvertSum(x: nat, y: nat, n: nat, party: AbyParty) returns (ok: bool, ids: seq<nat>, values: seq<nat>)
    requires x < 2 && y < 2 && n < 4 && party.width == 2 && party.wires == []
    modifies party
    ensures ok && |ids| == |values| == 2 && WiresOk(party.wires)
    ensures ids[0] < |party.wires| && AbyValue(party.wires, 2, ids[0]) == values[0]
    ensures ids[1] < |party.wires| && AbyValue(party.wires, 2, ids[1]) == values[1]
    ensures values[1] == Low(x + 2 * y + n, 2)
  {
    CircuitIsShared(x, y, n);
    GateKinds();
    hide GATES, GateAt, WellShared, PlainOk, AbyValue, Value, WiresOk, Low;
    assert WiresOk(party.wires) by { NoWires(); }
    ok, ids, values := ConvertAndSimulate(GATES, Inputs(x, y, n), PARTIES, SHARINGS, [8, 9], party, PlainOf(x, y, n));
    SumIsRight(x, y, n);
  }

  lemma NoWires()
    ensures WiresOk([])
  {
  }

  lemma GateKinds()
    ensures forall g | g in GATES :: GATES[g].op != NEG
    ensures 8 in GATES && GATES[8].op == OUTPUT && 9 in GATES && GATES[9].op == OUTPUT
  {
    AllGates();
    hide GATES;
  }

  lemma TwoBits(x: nat, y: nat)
    ensures Compose([x, y]) == x + 2 * y
  {
    assert Compose([]) == 0;
    assert [y][1..] == [] && [x, y][1..] == [y];
    assert Compose([y]) == y;
  }

  lemma SumIsRight(x: nat, y: nat, n: nat)
    requires PlainOk(PlainOf(x, y, n))
    ensures 9 in GATES && Value(PlainOf(x, y, n), Wire(9, 0)) == Low(x + 2 * y + n, 2)
  {
    AllGates();
    var p := PlainOf(x, y, n);
    hide GATES, PlainOk, Low;
    assert Value(p, Wire(1, 0)) == x && Value(p, Wire(2, 0)) == y && Value(p, Wire(4, 0)) == n;
    assert FaninValues(p, 3, 2) == [x, y];
    TwoBits(x, y);
    assert Value(p, Wire(3, 0)) == x + 2 * y;
    assert FaninValues(p, 5, 2) == [x + 2 * y, n];
    assert Value(p, Wire(5, 0)) == Low(x + 2 * y + n, 2);
    assert FaninValues(p, 9, 1) == [Low(x + 2 * y + n, 2)];
  }
}
