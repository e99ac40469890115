/** CircuitConverter: every gate becomes gates of the three ABY sharings that compute the same. */
module Converter {
  import opened Powers
  import opened Shifts
  import opened Words
  import opened GateGraph
  import opened PlainSimulation
  import opened AbyCircuit

  const INVALID: int := -1

  /** ABYGates: the wires of one endpoint in each sharing. */
  datatype AbyGates = AbyGates(yao: int, gmw: int, arith: int)

  type Sharings = map<GateId, Sharing>
  type AbyMap = map<Wire, AbyGates>

  function Get(a: AbyGates, s: Sharing): (id: int) {
    match s
    case YAO => a.yao
    case GMW => a.gmw
    case ARITH => a.arith
  }

  function Set(a: AbyGates, s: Sharing, id: int): (a': AbyGates) {
    match s
    case YAO => a.(yao := id)
    case GMW => a.(gmw := id)
    case ARITH => a.(arith := id)
  }

  // ----- circuits that can be shared -----

  predicate IsBoolSharing(s: Sharing) { s == YAO || s == GMW }

  /** What update_sharing_kind establishes for gate g. */
  ghost predicate SharedGate(p: Plain, sharings: Sharings, g: GateId)
    requires g in p.gates
  {
    match p.gates[g].op
    case NOT | AND | OR | XOR | ONE | SPLIT => g in sharings && IsBoolSharing(sharings[g])
    case OUTPUT =>
      && g in sharings && p.gates[g].fanins != []
      && (if p.gates[g].fanins[0].gate in p.gates && p.gates[p.gates[g].fanins[0].gate].width == 1
          then IsBoolSharing(sharings[g]) else sharings[g] == ARITH)
    case INPUT => true
    case _ => g !in sharings
  }

  ghost predicate WellShared(p: Plain, sharings: Sharings, parties: map<GateId, Role>) {
    && PlainOk(p) && Mirrored(p.gates)
    && forall g | g in p.gates :: SharedGate(p, sharings, g) && (p.gates[g].op == INPUT ==> g in parties)
  }

  // ----- what holds between the steps -----

  /** id carries the value of the endpoint, in the sharing asked for. */
  ghost predicate Carries(p: Plain, wires: seq<AbyGate>, id: nat, w: Wire, s: Sharing) {
    && PlainOk(p) && WiresOk(wires) && w.gate in p.gates && id < |wires| && SharingOf(wires[id]) == s
    && AbyValue(wires, p.width, id) == Value(p, w)
    && (wires[id].InGate? ==> p.gates[w.gate].op == INPUT)
  }

  ghost predicate EntryOk(p: Plain, wires: seq<AbyGate>, aby: AbyMap, w: Wire, s: Sharing)
    requires w in aby
  {
    Get(aby[w], s) != INVALID ==> 0 <= Get(aby[w], s) && Carries(p, wires, Get(aby[w], s), w, s)
  }

  ghost predicate MapOk(p: Plain, wires: seq<AbyGate>, aby: AbyMap) {
    forall w, s | w in aby :: EntryOk(p, wires, aby, w, s)
  }

  /** The endpoint can be asked for: bits in a Boolean sharing, numbers as numbers. */
  ghost predicate Available(p: Plain, aby: AbyMap, w: Wire) {
    && w in aby
    && (IsBitPin(p.gates, p.width, w) ==> aby[w].yao != INVALID || aby[w].gmw != INVALID)
    && (IsNumberPin(p.gates, p.width, w) ==> aby[w].arith != INVALID)
  }

  ghost predicate PinsAvailable(p: Plain, aby: AbyMap, g: GateId)
    requires g in p.gates
  {
    p.gates[g].op != INPUT ==> forall pin: nat | HasPin(p, g, pin) :: Available(p, aby, Wire(g, pin))
  }

  ghost predicate Converted(p: Plain, aby: AbyMap, order: seq<GateId>) {
    forall g | g in order :: g in p.gates && PinsAvailable(p, aby, g)
  }

  /** Inputs may have entries of their kind only, once they have any. */
  ghost predicate InputsOk(p: Plain, aby: AbyMap) {
    forall w | w in aby && w.gate in p.gates && p.gates[w.gate].op == INPUT :: Available(p, aby, w)
  }

  ghost predicate Grows(aby: AbyMap, aby': AbyMap) {
    forall w | w in aby :: w in aby' && forall s :: Get(aby[w], s) != INVALID ==> Get(aby'[w], s) != INVALID
  }

  lemma GrowsKeeps(p: Plain, aby: AbyMap, aby': AbyMap, order: seq<GateId>)
    requires Grows(aby, aby') && Converted(p, aby, order)
    ensures Converted(p, aby', order)
  {
    hide HasPin, IsBitPin, IsNumberPin;
    forall g | g in order
      ensures PinsAvailable(p, aby', g)
    {
      forall pin: nat | p.gates[g].op != INPUT && HasPin(p, g, pin)
        ensures Available(p, aby', Wire(g, pin))
      {
        assert Available(p, aby, Wire(g, pin));
        AvailableStays(p, aby, aby', Wire(g, pin));
      }
    }
  }

  lemma AvailableStays(p: Plain, aby: AbyMap, aby': AbyMap, w: Wire)
    requires Grows(aby, aby') && Available(p, aby, w)
    ensures Available(p, aby', w)
  {
    assert Get(aby[w], YAO) == aby[w].yao && Get(aby[w], GMW) == aby[w].gmw && Get(aby[w], ARITH) == aby[w].arith;
    assert Get(aby'[w], YAO) == aby'[w].yao && Get(aby'[w], GMW) == aby'[w].gmw && Get(aby'[w], ARITH) == aby'[w].arith;
  }

  lemma GrowsTransitive(aby: AbyMap, aby': AbyMap, aby'': AbyMap)
    requires Grows(aby, aby') && Grows(aby', aby'')
    ensures Grows(aby, aby'')
  {
  }

  lemma CarriesLater(p: Plain, wires: seq<AbyGate>, wires': seq<AbyGate>, id: nat, w: Wire, s: Sharing)
    requires Carries(p, wires, id, w, s) && WiresOk(wires') && wires <= wires'
    ensures Carries(p, wires', id, w, s)
  {
    hide PlainOk, WiresOk, Value;
    AbyValueStays(wires, wires', p.width, id);
  }

  lemma MapLater(p: Plain, wires: seq<AbyGate>, wires': seq<AbyGate>, aby: AbyMap)
    requires MapOk(p, wires, aby) && WiresOk(wires') && wires <= wires'
    ensures MapOk(p, wires', aby)
  {
    hide Carries, WiresOk;
    forall w, s | w in aby
      ensures EntryOk(p, wires', aby, w, s)
    {
      assert EntryOk(p, wires, aby, w, s);
      if Get(aby[w], s) != INVALID {
        CarriesLater(p, wires, wires', Get(aby[w], s), w, s);
      }
    }
  }

  /** map_gate keeps the entries of the other sharings. */
  ghost function Mapped(aby: AbyMap, w: Wire, s: Sharing, id: int): (aby': AbyMap) {
    aby[w := Set(if w in aby then aby[w] else AbyGates(INVALID, INVALID, INVALID), s, id)]
  }

  lemma MappedIsOk(p: Plain, wires: seq<AbyGate>, aby: AbyMap, w: Wire, s: Sharing, id: nat)
    requires MapOk(p, wires, aby) && Carries(p, wires, id, w, s)
    ensures MapOk(p, wires, Mapped(aby, w, s, id)) && Grows(aby, Mapped(aby, w, s, id))
  {
    hide Carries;
    var aby' := Mapped(aby, w, s, id);
    forall v, t | v in aby'
      ensures EntryOk(p, wires, aby', v, t)
    {
      assert v in aby ==> EntryOk(p, wires, aby, v, t);
    }
  }

  lemma MappedInputs(p: Plain, aby: AbyMap, w: Wire, s: Sharing, id: nat)
    requires InputsOk(p, aby)
    requires w.gate in p.gates && p.gates[w.gate].op == INPUT ==> if s == ARITH then !IsBitPin(p.gates, p.width, w) else !IsNumberPin(p.gates, p.width, w)
    ensures InputsOk(p, Mapped(aby, w, s, id))
    ensures Grows(aby, Mapped(aby, w, s, id))
  {
    var aby' := Mapped(aby, w, s, id);
    forall v | v in aby' && v.gate in p.gates && p.gates[v.gate].op == INPUT
      ensures Available(p, aby', v)
    {
      assert v != w ==> Available(p, aby, v);
      assert v == w && w in aby ==> Available(p, aby, w);
    }
  }

  /** How many of the endpoints have a wire in the sharing. */
  ghost function Recorded(aby: AbyMap, ws: seq<Wire>, s: Sharing): (n: nat) {
    if ws == [] then 0
    else
      var last := ws[|ws| - 1];
      Recorded(aby, ws[..|ws| - 1], s) + if last in aby && Get(aby[last], s) != INVALID then 1 else 0
  }

  class CircuitConverter {
    const gates: Gates
    const inputValues: map<GateId, nat>
    const inputParties: map<GateId, Role>
    const party: AbyParty
    ghost const p: Plain
    var sharings: Sharings
    var cbmcToAby: AbyMap
    var arithBitWidth: nat

    ghost predicate Valid()
      reads this, party
    {
      && WellShared(p, sharings, inputParties) && p.gates == gates && p.inputs == inputValues && p.width == party.width
      && WiresOk(party.wires) && MapOk(p, party.wires, cbmcToAby) && InputsOk(p, cbmcToAby)
      && (arithBitWidth == 0 || arithBitWidth == p.width)
    }

    constructor (gates: Gates, inputValues: map<GateId, nat>, inputParties: map<GateId, Role>, sharings: Sharings,
                 party: AbyParty, ghost p: Plain)
      requires WellShared(p, sharings, inputParties) && p.gates == gates && p.inputs == inputValues
      requires p.width == party.width && WiresOk(party.wires)
      ensures Valid() && this.p == p && this.gates == gates && this.party == party
      ensures cbmcToAby == map[] && this.sharings == sharings
    {
      hide WellShared, WiresOk;
      this.gates := gates;
      this.inputValues := inputValues;
      this.inputParties := inputParties;
      this.party := party;
      this.p := p;
      this.sharings := sharings;
      cbmcToAby := map[];
      arithBitWidth := 0;
    }

    method MapGate(w: Wire, s: Sharing, id: nat)
      requires Valid() && Carries(p, party.wires, id, w, s)
      requires w.gate in gates && gates[w.gate].op == INPUT ==>
                 if s == ARITH then !IsBitPin(gates, p.width, w) else !IsNumberPin(gates, p.width, w)
      modifies this`cbmcToAby
      ensures Valid() && cbmcToAby == Mapped(old(cbmcToAby), w, s, id) && Grows(old(cbmcToAby), cbmcToAby)
    {
      hide WellShared, WiresOk, MapOk, InputsOk, Carries, Grows;
      MappedIsOk(p, party.wires, cbmcToAby, w, s, id);
      MappedInputs(p, cbmcToAby, w, s, id);
      var known := if w in cbmcToAby then cbmcToAby[w] else AbyGates(INVALID, INVALID, INVALID);
      cbmcToAby := cbmcToAby[w := Set(known, s, id)];
    }

    /** A new ABY gate leaves everything recorded as it was. */
    method Put(g: AbyGate) returns (id: nat)
      requires Valid() && GateFits(party.wires, |party.wires|, g)
      modifies party
      ensures Valid() && party.wires == old(party.wires) + [g] && id == |old(party.wires)|
    {
      hide WellShared, WiresOk, MapOk, InputsOk, GateFits;
      ghost var before := party.wires;
      id := party.Put(g);
      MapLater(p, before, party.wires, cbmcToAby);
    }

    // ----- wires of endpoints -----

    /** The kind of endpoint that has wires in the sharing. */
    ghost predicate CanHave(w: Wire, s: Sharing) {
      if s == ARITH then IsNumberPin(gates, p.width, w) else IsBitPin(gates, p.width, w)
    }

    method CreateInput(w: Wire, s: Sharing) returns (id: nat)
      requires Valid() && w.gate in gates && gates[w.gate].op == INPUT && CanHave(w, s)
      modifies this`cbmcToAby, party
      ensures Valid() && Carries(p, party.wires, id, w, s) && cbmcToAby == Mapped(old(cbmcToAby), w, s, id)
      ensures party.wires == old(party.wires) + [InGate(s, inputValues[w.gate], inputParties[w.gate])]
      ensures Grows(old(cbmcToAby), cbmcToAby)
    {
      hide WellShared, WiresOk, MapOk, InputsOk, Carries, Grows, AbyValue, Value;
      InputFacts(p, sharings, inputParties, w);
      ghost var before := party.wires;
      id := Put(InGate(s, inputValues[w.gate], inputParties[w.gate]));
      InputCarries(p, before, party.wires, w, s, inputParties[w.gate]);
      KindsDiffer(p, w);
      MapGate(w, s, id);
    }

    method GetAbyGate(w: Wire, s: Sharing) returns (id: nat)
      requires Valid() && CanHave(w, s) && w.gate in gates && (gates[w.gate].op == INPUT || Available(p, cbmcToAby, w))
      modifies this`cbmcToAby, party
      ensures Valid() && Carries(p, party.wires, id, w, s)
      ensures Grows(old(cbmcToAby), cbmcToAby) && old(party.wires) <= party.wires
    {
      hide WellShared, WiresOk, Carries, Grows, AbyValue, Value, IsBitPin, IsNumberPin, MapOk;
      NothingGrows(cbmcToAby);
      if w in cbmcToAby {
        var aby := cbmcToAby[w];
        EntryIn(p, party.wires, cbmcToAby, w, s);
        EntryIn(p, party.wires, cbmcToAby, w, GMW);
        EntryIn(p, party.wires, cbmcToAby, w, YAO);
        InputAvailable(p, cbmcToAby, w);
        if Get(aby, s) != INVALID {
          return Get(aby, s);
        }
        if aby.gmw != INVALID && s == YAO {
          id := PutConversion(w, GMW, YAO, aby.gmw);
          return;
        }
        if aby.yao != INVALID && s == GMW {
          if gates[w.gate].op == INPUT {
            id := CreateInput(w, s);
            return;
          }
          id := PutConversion(w, YAO, GMW, aby.yao);
          return;
        }
        assert false;
      }
      assert gates[w.gate].op == INPUT;
      id := CreateInput(w, s);
    }

    /** PutB2YCONVGate and PutY2BCONVGate; the new wire is not recorded for the endpoint. */
    method PutConversion(w: Wire, from: Sharing, to: Sharing, a: nat) returns (id: nat)
      requires Valid() && Carries(p, party.wires, a, w, from)
      requires (from == GMW && to == YAO) || (from == YAO && to == GMW && w.gate in gates && gates[w.gate].op != INPUT)
      modifies party
      ensures Valid() && Carries(p, party.wires, id, w, to) && old(party.wires) <= party.wires
    {
      hide WellShared, WiresOk, MapOk, InputsOk, Value, AbyValue;
      ghost var before := party.wires;
      id := Put(ConvGate(to, a));
      NewWire(p, before, ConvGate(to, a));
    }

    // ----- one gate -----

    /** get_sharing */
    function GetSharing(g: GateId): (s: Sharing)
      requires g in gates && (g in sharings || IsArithOp(gates[g].op))
      reads this`sharings
    {
      if g in sharings then sharings[g] else ARITH
    }

    ghost function SharingAt(g: GateId): (s: Sharing)
      reads this`sharings
    {
      if g in sharings then sharings[g] else ARITH
    }

    /** The fanins of g were converted before. */
    ghost predicate Ready(g: GateId)
      reads this
    {
      g in gates && forall w | w in gates[g].fanins :: w.gate in gates && (gates[w.gate].op == INPUT || Available(p, cbmcToAby, w))
    }

    ghost predicate FaninsAre(g: GateId, s: Sharing) {
      g in gates && forall w | w in gates[g].fanins :: CanHave(w, s)
    }

    method GetFanin(g: GateId, i: nat, s: Sharing) returns (a: nat)
      requires Valid() && Ready(g) && FaninsAre(g, s) && i < |gates[g].fanins|
      modifies this`cbmcToAby, party
      ensures Valid() && Ready(g) && Carries(p, party.wires, a, gates[g].fanins[i], s)
      ensures Grows(old(cbmcToAby), cbmcToAby) && old(party.wires) <= party.wires
    {
      hide WellShared, WiresOk, Carries, Grows, AbyValue, Value, IsBitPin, IsNumberPin, MapOk, InputsOk, Available;
      var w := gates[g].fanins[i];
      assert w in gates[g].fanins;
      a := GetAbyGate(w, s);
      ReadyStays(p, old(cbmcToAby), cbmcToAby, gates[g].fanins);
    }

    /** get_two_aby_fanins */
    method GetTwoFanins(g: GateId, s: Sharing) returns (a: nat, b: nat)
      requires Valid() && Ready(g) && FaninsAre(g, s) && |gates[g].fanins| == 2
      modifies this`cbmcToAby, party
      ensures Valid() && Carries(p, party.wires, a, gates[g].fanins[0], s) && Carries(p, party.wires, b, gates[g].fanins[1], s)
      ensures Grows(old(cbmcToAby), cbmcToAby) && old(party.wires) <= party.wires
    {
      hide WellShared, WiresOk, Carries, Grows, MapOk, InputsOk, Available, CanHave;
      a := GetFanin(g, 0, s);
      ghost var wires, aby := party.wires, cbmcToAby;
      b := GetFanin(g, 1, s);
      CarriesLater(p, wires, party.wires, a, gates[g].fanins[0], s);
      GrowsTransitive(old(cbmcToAby), aby, cbmcToAby);
    }

    /** The gate's own pin gets its wire. */
    method Finish(g: GateId, pin: nat, s: Sharing, id: nat)
      requires Valid() && Carries(p, party.wires, id, Wire(g, pin), s) && g in gates && gates[g].op != INPUT
      modifies this`cbmcToAby
      ensures Valid() && cbmcToAby == Mapped(old(cbmcToAby), Wire(g, pin), s, id) && Grows(old(cbmcToAby), cbmcToAby)
    {
      hide WellShared, WiresOk, MapOk, InputsOk, Carries, Grows;
      MapGate(Wire(g, pin), s, id);
    }

    /** The cases NOT, AND, OR and XOR. */
    method ConvertBoolean(g: GateId)
      requires Valid() && Ready(g) && g in sharings && IsBoolSharing(sharings[g]) && FaninsAre(g, sharings[g])
      requires gates[g].op == NOT || gates[g].op == AND || gates[g].op == OR || gates[g].op == XOR
      requires |gates[g].fanins| == FaninCount(gates[g].op, gates[g].width)
      modifies this`cbmcToAby, party
      ensures Valid() && Grows(old(cbmcToAby), cbmcToAby) && old(party.wires) <= party.wires
      ensures Wire(g, 0) in cbmcToAby && Get(cbmcToAby[Wire(g, 0)], sharings[g]) != INVALID
    {
      hide WellShared, WiresOk, MapOk, InputsOk, Carries, Grows, GateFits, Available, CanHave;
      var s := GetSharing(g);
      var id;
      if gates[g].op == NOT {
        var a := GetFanin(g, 0, s);
        id := PutNot(g, s, a);
      } else {
        var a, b := GetTwoFanins(g, s);
        if gates[g].op == AND {
          id := PutAnd(g, s, a, b);
        } else if gates[g].op == XOR {
          id := PutXor(g, s, a, b);
        } else {
          id := PutOr(g, s, a, b);
        }
      }
      ghost var aby := cbmcToAby;
      Finish(g, 0, s, id);
      GrowsTransitive(old(cbmcToAby), aby, cbmcToAby);
    }

    method PutNot(g: GateId, s: Sharing, a: nat) returns (id: nat)
      requires Valid() && g in gates && gates[g].op == NOT && |gates[g].fanins| == 1 && s != ARITH
      requires Carries(p, party.wires, a, gates[g].fanins[0], s)
      modifies party
      ensures Valid() && Carries(p, party.wires, id, Wire(g, 0), s) && old(party.wires) <= party.wires
    {
      hide WellShared, WiresOk, MapOk, InputsOk, Value, AbyValue;
      ghost var before := party.wires;
      id := Put(InvGate(s, a));
      NewWire(p, before, InvGate(s, a));
      ValueOfOne(p, g, 0);
    }

    method PutAnd(g: GateId, s: Sharing, a: nat, b: nat) returns (id: nat)
      requires Valid() && g in gates && gates[g].op == AND && |gates[g].fanins| == 2 && s != ARITH
      requires Carries(p, party.wires, a, gates[g].fanins[0], s) && Carries(p, party.wires, b, gates[g].fanins[1], s)
      modifies party
      ensures Valid() && Carries(p, party.wires, id, Wire(g, 0), s) && old(party.wires) <= party.wires
    {
      hide WellShared, WiresOk, MapOk, InputsOk, Value, AbyValue;
      ghost var before := party.wires;
      id := Put(AndGate(s, a, b));
      NewWire(p, before, AndGate(s, a, b));
      ValueOfTwo(p, g);
    }

    method PutXor(g: GateId, s: Sharing, a: nat, b: nat) returns (id: nat)
      requires Valid() && g in gates && gates[g].op == XOR && |gates[g].fanins| == 2 && s != ARITH
      requires Carries(p, party.wires, a, gates[g].fanins[0], s) && Carries(p, party.wires, b, gates[g].fanins[1], s)
      modifies party
      ensures Valid() && Carries(p, party.wires, id, Wire(g, 0), s) && old(party.wires) <= party.wires
    {
      hide WellShared, WiresOk, MapOk, InputsOk, Value, AbyValue;
      ghost var before := party.wires;
      id := Put(XorGate(s, a, b));
      NewWire(p, before, XorGate(s, a, b));
      ValueOfTwo(p, g);
    }

    /** ABY has no OR: a OR b is (a AND b) XOR (a XOR b). */
    method PutOr(g: GateId, s: Sharing, a: nat, b: nat) returns (id: nat)
      requires Valid() && g in gates && gates[g].op == OR && |gates[g].fanins| == 2 && s != ARITH
      requires FaninsAre(g, s)
      requires Carries(p, party.wires, a, gates[g].fanins[0], s) && Carries(p, party.wires, b, gates[g].fanins[1], s)
      modifies party
      ensures Valid() && Carries(p, party.wires, id, Wire(g, 0), s) && old(party.wires) <= party.wires
    {
      hide WellShared, WiresOk, MapOk, InputsOk, Value, AbyValue;
      ghost var wires0 := party.wires;
      var left := Put(AndGate(s, a, b));
      NewWire(p, wires0, AndGate(s, a, b));
      ghost var wires1 := party.wires;
      var right := Put(XorGate(s, a, b));
      NewWire(p, wires1, XorGate(s, a, b));
      ghost var wires2 := party.wires;
      id := Put(XorGate(s, left, right));
      NewWire(p, wires2, XorGate(s, left, right));
      OrValue(p, g, AbyValue(wires0, p.width, a), AbyValue(wires0, p.width, b),
              AbyValue(wires1, p.width, left), AbyValue(wires2, p.width, right));
    }

    /** verify_arith_bit_width, which never fails on a circuit with one arithmetic width. */
    method VerifyArithBitWidth(width: nat) returns (ok: bool)
      requires Valid() && width == p.width
      modifies this`arithBitWidth
      ensures Valid() && ok
    {
      hide WellShared, WiresOk, MapOk, InputsOk;
      if arithBitWidth == 0 {
        arithBitWidth := width;
      }
      ok := arithBitWidth == width;
    }

    /** The cases ADD, SUB and MUL. */
    method ConvertArithmetic(g: GateId)
      requires Valid() && Ready(g) && FaninsAre(g, ARITH) && |gates[g].fanins| == 2 && gates[g].width == p.width
      requires gates[g].op == ADD || gates[g].op == SUB || gates[g].op == MUL
      modifies this`cbmcToAby, this`arithBitWidth, party
      ensures Valid() && Grows(old(cbmcToAby), cbmcToAby) && old(party.wires) <= party.wires
      ensures Wire(g, 0) in cbmcToAby && cbmcToAby[Wire(g, 0)].arith != INVALID
    {
      hide WellShared, WiresOk, MapOk, InputsOk, Grows, Available, CanHave, Value, AbyValue, Low, Carries;
      var ok := VerifyArithBitWidth(gates[g].width);
      var a, b := GetTwoFanins(g, ARITH);
      ghost var aby := cbmcToAby;
      var id := PutArithmetic(g, a, b);
      Finish(g, 0, ARITH, id);
      GrowsTransitive(old(cbmcToAby), aby, cbmcToAby);
    }

    method PutArithmetic(g: GateId, a: nat, b: nat) returns (id: nat)
      requires Valid() && g in gates && (gates[g].op == ADD || gates[g].op == SUB || gates[g].op == MUL)
      requires |gates[g].fanins| == 2 && gates[g].width == p.width
      requires Carries(p, party.wires, a, gates[g].fanins[0], ARITH) && Carries(p, party.wires, b, gates[g].fanins[1], ARITH)
      modifies party
      ensures Valid() && Carries(p, party.wires, id, Wire(g, 0), ARITH) && old(party.wires) <= party.wires
    {
      hide WellShared, WiresOk, MapOk, InputsOk, Value, AbyValue, Low;
      var op := gates[g].op;
      ghost var before := party.wires;
      var gate := if op == ADD then AddGate(a, b) else if op == SUB then SubGate(a, b) else MulGate(a, b);
      id := Put(gate);
      NewWire(p, before, gate);
      ValueOfTwo(p, g);
    }

    /** The cases ONE and CONST. */
    method ConvertConstant(g: GateId, s: Sharing)
      requires Valid() && g in gates && (gates[g].op == ONE || gates[g].op == CONST) && gates[g].fanins == []
      requires s == if gates[g].op == ONE then (if g in sharings then sharings[g] else ARITH) else ARITH
      modifies this`cbmcToAby, party
      ensures Valid() && Grows(old(cbmcToAby), cbmcToAby) && old(party.wires) <= party.wires
      ensures Wire(g, 0) in cbmcToAby && Get(cbmcToAby[Wire(g, 0)], s) != INVALID
    {
      hide WellShared, WiresOk, MapOk, InputsOk, Grows, AbyValue;
      var gate := ConstantGate(s, if gates[g].op == ONE then 1 else gates[g].value);
      ghost var before := party.wires;
      var id := Put(gate);
      NewWire(p, before, gate);
      SharedIsPlain(p, sharings, inputParties);
      ValueOfNone(p, g);
      Finish(g, 0, s, id);
    }

    /** choose_sharing_for_combine: GMW if an INPUT is combined, and otherwise what most fanins have. */
    method ChooseSharingForCombine(g: GateId) returns (s: Sharing)
      requires g in gates && forall w | w in gates[g].fanins :: w.gate in gates
      ensures IsBoolSharing(s)
      ensures s == GMW <==>
              || (exists w :: w in gates[g].fanins && gates[w.gate].op == INPUT)
              || Recorded(cbmcToAby, gates[g].fanins, YAO) <= Recorded(cbmcToAby, gates[g].fanins, GMW)
    {
      var numGmw, numYao := 0, 0;
      var fanins := gates[g].fanins;
      for i := 0 to |fanins|
        invariant forall w | w in fanins[..i] :: gates[w.gate].op != INPUT
        invariant numGmw == Recorded(cbmcToAby, fanins[..i], GMW) && numYao == Recorded(cbmcToAby, fanins[..i], YAO)
      {
        assert fanins[i] in fanins;
        if gates[fanins[i].gate].op == INPUT {
          return GMW;
        }
        if fanins[i] in cbmcToAby {
          var aby := cbmcToAby[fanins[i]];
          numGmw := numGmw + if aby.gmw != INVALID then 1 else 0;
          numYao := numYao + if aby.yao != INVALID then 1 else 0;
        }
        assert fanins[..i + 1] == fanins[..i] + [fanins[i]];
      }
      assert fanins[..|fanins|] == fanins;
      s := if numYao > numGmw then YAO else GMW;
    }

    method ConvertCombine(g: GateId)
      requires Valid() && Ready(g) && gates[g].op == COMBINE && gates[g].width == p.width == |gates[g].fanins|
      requires FaninsAre(g, YAO) && FaninsAre(g, GMW)
      modifies this`cbmcToAby, this`arithBitWidth, party
      ensures Valid() && Grows(old(cbmcToAby), cbmcToAby) && old(party.wires) <= party.wires
      ensures Wire(g, 0) in cbmcToAby && cbmcToAby[Wire(g, 0)].arith != INVALID
    {
      hide WellShared, WiresOk, MapOk, InputsOk, Grows, Available, CanHave, Value, AbyValue, Low, Carries;
      var ok := VerifyArithBitWidth(gates[g].width);
      var s := ChooseSharingForCombine(g);
      var fanins := gates[g].fanins;
      var boolWires: seq<nat> := [];
      NothingGrows(cbmcToAby);
      for i := 0 to |fanins|
        invariant Valid() && Ready(g) && Grows(old(cbmcToAby), cbmcToAby) && old(party.wires) <= party.wires
        invariant |boolWires| == i && AllCarry(p, party.wires, boolWires, fanins[..i], s)
      {
        ghost var wires, aby := party.wires, cbmcToAby;
        var id := GetFanin(g, i, s);
        AllCarryLater(p, wires, party.wires, boolWires, fanins[..i], s, id, fanins[i]);
        assert fanins[..i + 1] == fanins[..i] + [fanins[i]];
        boolWires := boolWires + [id];
        GrowsTransitive(old(cbmcToAby), aby, cbmcToAby);
      }
      assert fanins[..|fanins|] == fanins;
      CombineFits(p, party.wires, boolWires, fanins, s);
      ghost var before, aby := party.wires, cbmcToAby;
      var id := Put(ToNumber(boolWires, s));
      NewWire(p, before, ToNumber(boolWires, s));
      SharedIsPlain(p, sharings, inputParties);
      CombineCarries(p, before, party.wires, boolWires, g, s);
      Finish(g, 0, ARITH, id);
      GrowsTransitive(old(cbmcToAby), aby, cbmcToAby);
    }

    /** The wires of a SPLIT go to the sharing of its first Boolean fanout, or to YAO. */
    method ChooseSharingForSplit(g: GateId) returns (s: Sharing, ghost first: nat)
      requires Valid() && g in gates && gates[g].op == SPLIT
      ensures IsBoolSharing(s) && first <= |gates[g].fanouts|
      ensures forall j: nat | j < first :: SharingAt(gates[g].fanouts[j].target.gate) == ARITH
      ensures if first == |gates[g].fanouts| then s == YAO else SharingAt(gates[g].fanouts[first].target.gate) == s
    {
      hide WiresOk, MapOk, InputsOk, WellShared;
      s, first := YAO, 0;
      var fanouts := gates[g].fanouts;
      for i := 0 to |fanouts|
        invariant forall j: nat | j < i :: SharingAt(fanouts[j].target.gate) == ARITH
      {
        FanoutOfSplit(p, sharings, inputParties, g, i);
        var sharing := GetSharing(fanouts[i].target.gate);
        if sharing != ARITH {
          return sharing, i;
        }
      }
      first := |fanouts|;
    }

    /** set_sharing adds the bits of the new sharing to those of the old one; S_BOOL has none. */
    method SetSharing(g: GateId, s: Sharing)
      requires Valid() && g in gates && gates[g].op == SPLIT && g in sharings && IsBoolSharing(s)
      modifies this`sharings
      ensures Valid() && sharings == old(sharings)[g := if old(sharings)[g] == YAO || s == YAO then YAO else GMW]
    {
      hide WiresOk, MapOk, InputsOk;
      var both := if sharings[g] == YAO || s == YAO then YAO else GMW;
      SharingsStay(p, sharings, sharings[g := both], inputParties, g);
      sharings := sharings[g := both];
    }

    method ConvertSplit(g: GateId)
      requires Valid() && Ready(g) && FaninsAre(g, ARITH) && gates[g].op == SPLIT && |gates[g].fanins| == 1 && g in sharings
      modifies this`cbmcToAby, this`sharings, party
      ensures Valid() && Grows(old(cbmcToAby), cbmcToAby) && old(party.wires) <= party.wires
      ensures sharings.Keys == old(sharings).Keys && forall h | h in sharings && h != g :: sharings[h] == old(sharings)[h]
      ensures forall pin: nat | pin < p.width ::
                Wire(g, pin) in cbmcToAby && (cbmcToAby[Wire(g, pin)].yao != INVALID || cbmcToAby[Wire(g, pin)].gmw != INVALID)
    {
      hide WellShared, WiresOk, MapOk, InputsOk, Available, CanHave, Value, AbyValue, Grows, Carries;
      var a := GetFanin(g, 0, ARITH);
      var s, first := ChooseSharingForSplit(g);
      SetSharing(g, s);
      ghost var all := sharings;
      for i := 0 to party.width
        invariant Valid() && Carries(p, party.wires, a, gates[g].fanins[0], ARITH)
        invariant Grows(old(cbmcToAby), cbmcToAby) && old(party.wires) <= party.wires
        invariant sharings == all
        invariant forall pin: nat | pin < i :: HasEntry(cbmcToAby, Wire(g, pin), s)
      {
        ghost var aby := cbmcToAby;
        PutBit(g, s, a, i);
        GrowsTransitive(old(cbmcToAby), aby, cbmcToAby);
        EntriesStay(aby, cbmcToAby, g, s, i);
      }
      BitsMapped(cbmcToAby, g, s, party.width);
    }

    /** Wire i of the share that PutA2YGate or PutA2BGate returns. */
    method PutBit(g: GateId, s: Sharing, a: nat, i: nat)
      requires Valid() && g in gates && gates[g].op == SPLIT && |gates[g].fanins| == 1 && s != ARITH
      requires Carries(p, party.wires, a, gates[g].fanins[0], ARITH)
      modifies this`cbmcToAby, party
      ensures Valid() && Carries(p, party.wires, a, gates[g].fanins[0], ARITH) && old(party.wires) <= party.wires
      ensures Grows(old(cbmcToAby), cbmcToAby)
      ensures Wire(g, i) in cbmcToAby && Get(cbmcToAby[Wire(g, i)], s) != INVALID
    {
      hide WellShared, WiresOk, MapOk, InputsOk, Value, AbyValue, Grows;
      ghost var before := party.wires;
      var id := Put(BitGate(s, a, i));
      NewWire(p, before, BitGate(s, a, i));
      ValueOfOne(p, g, i);
      CarriesLater(p, before, party.wires, a, gates[g].fanins[0], ARITH);
      Finish(g, i, s, id);
    }

    method ConvertOutput(g: GateId)
      requires Valid() && Ready(g) && gates[g].op == OUTPUT && |gates[g].fanins| == 1 && g in sharings
      requires FaninsAre(g, sharings[g])
      requires IsBoolSharing(sharings[g]) <==> gates[gates[g].fanins[0].gate].width == 1
      modifies this`cbmcToAby, party
      ensures Valid() && Grows(old(cbmcToAby), cbmcToAby) && old(party.wires) <= party.wires
      ensures Wire(g, 0) in cbmcToAby && Get(cbmcToAby[Wire(g, 0)], sharings[g]) != INVALID
    {
      hide WellShared, WiresOk, MapOk, InputsOk, Available, CanHave, Value, AbyValue, Grows;
      var fanin := gates[g].fanins[0];
      var s := if gates[fanin.gate].width == 1 then GetSharing(g) else ARITH;
      var a := GetFanin(g, 0, s);
      ghost var before, aby := party.wires, cbmcToAby;
      var id := Put(OutGate(s, a));
      NewWire(p, before, OutGate(s, a));
      ValueOfOne(p, g, 0);
      Finish(g, 0, s, id);
      GrowsTransitive(old(cbmcToAby), aby, cbmcToAby);
    }

    /** operator(): it throws on NEG, and converts every other gate. */
    method Convert(g: GateId) returns (ok: bool)
      requires Valid() && Ready(g)
      modifies this`cbmcToAby, this`sharings, this`arithBitWidth, party
      ensures ok <==> gates[g].op != NEG
      ensures ok ==> Valid() && Grows(old(cbmcToAby), cbmcToAby) && PinsAvailable(p, cbmcToAby, g)
      ensures ok ==> SharingsKept(gates, old(sharings), sharings)
      ensures ok && gates[g].op == OUTPUT ==> g in sharings && HasEntry(cbmcToAby, Wire(g, 0), sharings[g])
    {
      hide WellShared, WiresOk, MapOk, InputsOk, Available, Grows, IsBitPin, IsNumberPin;
      NothingGrows(cbmcToAby);
      GateFacts(p, sharings, inputParties, g);
      ok := true;
      match gates[g].op
      case NOT | AND | OR | XOR =>
        ConvertBoolean(g);
        BoolAvailable(p, cbmcToAby, g, sharings[g]);
      case NEG =>
        ok := false;
      case ADD | SUB | MUL =>
        ConvertArithmetic(g);
        NumberAvailable(p, cbmcToAby, g);
      case COMBINE =>
        ConvertCombine(g);
        NumberAvailable(p, cbmcToAby, g);
      case SPLIT =>
        ConvertSplit(g);
        SplitAvailable(p, cbmcToAby, g);
      case ONE =>
        ConvertConstant(g, sharings[g]);
        BoolAvailable(p, cbmcToAby, g, sharings[g]);
      case CONST =>
        var fits := VerifyArithBitWidth(gates[g].width);
        ConvertConstant(g, ARITH);
        NumberAvailable(p, cbmcToAby, g);
      case INPUT =>
      case OUTPUT =>
        ConvertOutput(g);
        OutputAvailable(p, cbmcToAby, g);
    }

    /** The traversal with the converter as its function. */
    method ConvertAll(order: seq<GateId>) returns (ok: bool)
      requires Valid() && InOrder(gates, order)
      modifies this`cbmcToAby, this`sharings, this`arithBitWidth, party
      ensures ok <==> forall g | g in order :: gates[g].op != NEG
      ensures ok ==> Valid() && OutputsDone(gates, sharings, cbmcToAby, order)
    {
      hide WellShared, WiresOk, MapOk, InputsOk, Available, Grows, PinsAvailable;
      for i := 0 to |order|
        invariant Valid() && Converted(p, cbmcToAby, order[..i]) && OutputsDone(gates, sharings, cbmcToAby, order[..i])
        invariant forall g | g in order[..i] :: gates[g].op != NEG
      {
        var g := order[i];
        assert g in gates && FaninsIn(gates, order[..i], g) && g in order;
        BecomesReady(p, sharings, inputParties, cbmcToAby, order[..i], g);
        ghost var aby, before := cbmcToAby, sharings;
        ok := Convert(g);
        if !ok { return; }
        assert order[..i + 1] == order[..i] + [g];
        GrowsKeeps(p, aby, cbmcToAby, order[..i]);
        OutputsStay(gates, before, sharings, aby, cbmcToAby, order[..i]);
      }
      assert order[..|order|] == order;
      ok := true;
    }

    /** create_output_map, for one output: its wire carries what simulate computes. */
    method OutputWire(o: GateId, ghost order: seq<GateId>) returns (id: nat)
      requires Valid() && o in gates && gates[o].op == OUTPUT && o in order && OutputsDone(gates, sharings, cbmcToAby, order)
      ensures Valid() && o in sharings && Carries(p, party.wires, id, Wire(o, 0), sharings[o])
    {
      hide WellShared, WiresOk, InputsOk, Carries;
      assert HasEntry(cbmcToAby, Wire(o, 0), sharings[o]);
      EntryIn(p, party.wires, cbmcToAby, Wire(o, 0), sharings[o]);
      id := Get(cbmcToAby[Wire(o, 0)], GetSharing(o));
    }
  }

  /** Only SPLIT gates change their sharing. */
  ghost predicate SharingsKept(gates: Gates, sharings: Sharings, sharings': Sharings) {
    sharings'.Keys == sharings.Keys
    && forall h | h in sharings && h in gates && gates[h].op != SPLIT :: sharings'[h] == sharings[h]
  }

  ghost predicate OutputsDone(gates: Gates, sharings: Sharings, aby: AbyMap, order: seq<GateId>) {
    forall g | g in order && g in gates && gates[g].op == OUTPUT :: g in sharings && HasEntry(aby, Wire(g, 0), sharings[g])
  }

  lemma OutputsStay(gates: Gates, sharings: Sharings, sharings': Sharings, aby: AbyMap, aby': AbyMap, order: seq<GateId>)
    requires OutputsDone(gates, sharings, aby, order) && SharingsKept(gates, sharings, sharings') && Grows(aby, aby')
    ensures OutputsDone(gates, sharings', aby', order)
  {
    hide Get;
  }

  lemma GateFacts(p: Plain, sharings: Sharings, parties: map<GateId, Role>, g: GateId)
    requires WellShared(p, sharings, parties) && g in p.gates
    ensures PlainOk(p) && |p.gates[g].fanins| == FaninCount(p.gates[g].op, p.gates[g].width)
    ensures var op, ws := p.gates[g].op, p.gates[g].fanins;
            && (IsArithOp(op) ==> p.gates[g].width == p.width)
            && (op == NOT || op == AND || op == OR || op == XOR || op == ONE || op == SPLIT ==>
                  g in sharings && IsBoolSharing(sharings[g]))
            && (op == NOT || op == AND || op == OR || op == XOR || op == COMBINE ==>
                  forall w | w in ws :: IsBitPin(p.gates, p.width, w))
            && (op == ADD || op == SUB || op == MUL || op == SPLIT ==> forall w | w in ws :: IsNumberPin(p.gates, p.width, w))
            && (op == OUTPUT ==>
                  && g in sharings && ws[0].gate in p.gates
                  && (IsBoolSharing(sharings[g]) <==> p.gates[ws[0].gate].width == 1)
                  && (if IsBoolSharing(sharings[g]) then forall w | w in ws :: IsBitPin(p.gates, p.width, w)
                      else sharings[g] == ARITH && forall w | w in ws :: IsNumberPin(p.gates, p.width, w)))
  {
    SharedAt(p, sharings, parties, g);
    GateIsTyped(p, g);
    hide WellShared, PlainOk, IsBitPin, IsNumberPin, Pow2, InputTyped;
    if p.gates[g].op == OUTPUT {
      OutputKind(p, g);
      assert p.gates[g].fanins == [p.gates[g].fanins[0]];
    }
  }

  lemma SharedAt(p: Plain, sharings: Sharings, parties: map<GateId, Role>, g: GateId)
    requires WellShared(p, sharings, parties) && g in p.gates
    ensures PlainOk(p) && SharedGate(p, sharings, g)
  {
  }

  lemma OutputKind(p: Plain, g: GateId)
    requires PlainOk(p) && g in p.gates && p.gates[g].op == OUTPUT
    ensures |p.gates[g].fanins| == 1 && p.gates[g].fanins[0].gate in p.gates
    ensures var w := p.gates[g].fanins[0];
            if p.gates[w.gate].width == 1 then IsBitPin(p.gates, p.width, w) else IsNumberPin(p.gates, p.width, w)
  {
    GateIsTyped(p, g);
    var w := p.gates[g].fanins[0];
    assert w in p.gates[g].fanins;
    GateIsTyped(p, w.gate);
  }

  lemma BecomesReady(p: Plain, sharings: Sharings, parties: map<GateId, Role>, aby: AbyMap, done: seq<GateId>, g: GateId)
    requires WellShared(p, sharings, parties) && Converted(p, aby, done) && FaninsIn(p.gates, done, g)
    ensures forall w | w in p.gates[g].fanins ::
              w.gate in p.gates && (p.gates[w.gate].op == INPUT || Available(p, aby, w))
  {
    SharedIsPlain(p, sharings, parties);
    hide WellShared, Available, HasPin, PlainOk;
    forall w | w in p.gates[g].fanins
      ensures w.gate in p.gates && (p.gates[w.gate].op == INPUT || Available(p, aby, w))
    {
      var i: nat :| i < |p.gates[g].fanins| && p.gates[g].fanins[i] == w;
      PinOfWire(p, g, i);
      assert PinsAvailable(p, aby, w.gate);
      assert w == Wire(w.gate, w.pin);
    }
  }

  lemma BoolAvailable(p: Plain, aby: AbyMap, g: GateId, s: Sharing)
    requires g in p.gates && IsBoolOp(p.gates[g].op) && HasEntry(aby, Wire(g, 0), s) && IsBoolSharing(s)
    ensures PinsAvailable(p, aby, g)
  {
  }

  lemma NumberAvailable(p: Plain, aby: AbyMap, g: GateId)
    requires g in p.gates && IsArithOp(p.gates[g].op) && Wire(g, 0) in aby && aby[Wire(g, 0)].arith != INVALID
    ensures PinsAvailable(p, aby, g)
  {
  }

  lemma SplitAvailable(p: Plain, aby: AbyMap, g: GateId)
    requires g in p.gates && p.gates[g].op == SPLIT
    requires forall pin: nat | pin < p.width ::
               Wire(g, pin) in aby && (aby[Wire(g, pin)].yao != INVALID || aby[Wire(g, pin)].gmw != INVALID)
    ensures PinsAvailable(p, aby, g)
  {
  }

  lemma OutputAvailable(p: Plain, aby: AbyMap, g: GateId)
    requires g in p.gates && p.gates[g].op == OUTPUT && Wire(g, 0) in aby
    ensures PinsAvailable(p, aby, g)
  {
  }

  /**
   The converter against the reference: run both on a topological order of any well-shared circuit
   without NEG, and every output wire carries what simulate computes for that output.
   */
  method ConvertAndSimulate(gates: Gates, inputs: map<GateId, nat>, parties: map<GateId, Role>, sharings: Sharings,
                            outputs: seq<GateId>, party: AbyParty, ghost p: Plain)
    returns (ok: bool, ids: seq<nat>, values: seq<nat>)
    requires WellShared(p, sharings, parties) && p.gates == gates && p.inputs == inputs && p.width == party.width
    requires WiresOk(party.wires) && forall o | o in outputs :: o in gates && gates[o].op == OUTPUT
    modifies party
    ensures (forall g | g in gates :: gates[g].op != NEG) ==> ok
    ensures !ok ==> exists g :: g in gates && gates[g].op == NEG
    ensures ok ==> WiresOk(party.wires) && |ids| == |values| == |outputs|
    ensures ok ==> forall i: nat | i < |outputs| ::
                     ids[i] < |party.wires| && AbyValue(party.wires, p.width, ids[i]) == values[i]
    ensures ok ==> PlainOk(p) && forall i: nat | i < |outputs| :: values[i] == Value(p, Wire(outputs[i], 0))
  {
    hide WellShared, WiresOk, AbyValue, Value, PlainOk, MapOk, InputsOk, AllDone, OutputsDone, InOrder;
    SharedIsPlain(p, sharings, parties);
    PlainIsRanked(p);
    var traversal := new Traversal(gates, p.rank);
    traversal.VisitAll(outputs);
    var order := traversal.order;
    OrderedGates(gates, order);
    var simulated := Simulate(gates, inputs, order, p);
    var converter := new CircuitConverter(gates, inputs, parties, sharings, party, p);
    ok := converter.ConvertAll(order);
    ids, values := [], [];
    if ok {
      ids, values := ReadOutputs(converter, simulated, outputs, order);
    }
  }

  /** The recorded output wires beside the simulated values. */
  method ReadOutputs(converter: CircuitConverter, simulated: map<Wire, nat>, outputs: seq<GateId>, ghost order: seq<GateId>)
    returns (ids: seq<nat>, values: seq<nat>)
    requires converter.Valid() && PlainOk(converter.p) && (forall g | g in order :: g in converter.gates)
    requires AllDone(converter.p, simulated, order)
    requires OutputsDone(converter.gates, converter.sharings, converter.cbmcToAby, order)
    requires forall o | o in outputs :: o in order && converter.gates[o].op == OUTPUT
    ensures WiresOk(converter.party.wires) && |ids| == |values| == |outputs|
    ensures forall i: nat | i < |outputs| ::
              ids[i] < |converter.party.wires| && AbyValue(converter.party.wires, converter.p.width, ids[i]) == values[i]
    ensures forall i: nat | i < |outputs| :: outputs[i] in converter.p.gates && values[i] == Value(converter.p, Wire(outputs[i], 0))
  {
    hide WellShared, WiresOk, AbyValue, Value, PlainOk, MapOk, InputsOk, AllDone, OutputsDone, Carries;
    ids, values := [], [];
    ghost var p, wires := converter.p, converter.party.wires;
    for i := 0 to |outputs|
      invariant |ids| == |values| == i
      invariant forall k: nat | k < i :: ids[k] < |wires| && AbyValue(wires, p.width, ids[k]) == values[k]
      invariant forall k: nat | k < i :: outputs[k] in p.gates && values[k] == Value(p, Wire(outputs[k], 0))
    {
      var o := outputs[i];
      assert o in outputs;
      var id := converter.OutputWire(o, order);
      CarriedValue(p, wires, id, Wire(o, 0), converter.sharings[o]);
      OutputIsSimulated(p, simulated, order, o);
      ids := ids + [id];
      values := values + [simulated[Wire(o, 0)]];
    }
  }

  lemma CarriedValue(p: Plain, wires: seq<AbyGate>, id: nat, w: Wire, s: Sharing)
    requires Carries(p, wires, id, w, s)
    ensures PlainOk(p) && WiresOk(wires) && w.gate in p.gates && id < |wires| && AbyValue(wires, p.width, id) == Value(p, w)
  {
  }

  lemma OrderedGates(gates: Gates, order: seq<GateId>)
    requires InOrder(gates, order)
    ensures forall g | g in order :: g in gates
  {
  }

  lemma PlainIsRanked(p: Plain)
    requires PlainOk(p)
    ensures Ranked(p.gates, p.rank)
  {
  }

  lemma OutputIsSimulated(p: Plain, values: map<Wire, nat>, order: seq<GateId>, o: GateId)
    requires PlainOk(p) && (forall g | g in order :: g in p.gates) && AllDone(p, values, order)
    requires o in order && p.gates[o].op == OUTPUT
    ensures Wire(o, 0) in values && values[Wire(o, 0)] == Value(p, Wire(o, 0))
  {
    hide PlainOk, Value;
    assert GateDone(p, values, o);
    assert HasPin(p, o, 0);
    assert PinDone(p, values, o, 0);
  }

  ghost predicate HasEntry(aby: AbyMap, w: Wire, s: Sharing) { w in aby && Get(aby[w], s) != INVALID }

  lemma EntriesStay(aby: AbyMap, aby': AbyMap, g: GateId, s: Sharing, n: nat)
    requires Grows(aby, aby') && forall pin: nat | pin < n :: HasEntry(aby, Wire(g, pin), s)
    ensures forall pin: nat | pin < n :: HasEntry(aby', Wire(g, pin), s)
  {
  }

  lemma BitsMapped(aby: AbyMap, g: GateId, s: Sharing, n: nat)
    requires IsBoolSharing(s) && forall pin: nat | pin < n :: HasEntry(aby, Wire(g, pin), s)
    ensures forall pin: nat | pin < n ::
              Wire(g, pin) in aby && (aby[Wire(g, pin)].yao != INVALID || aby[Wire(g, pin)].gmw != INVALID)
  {
    forall pin: nat | pin < n
      ensures Wire(g, pin) in aby && (aby[Wire(g, pin)].yao != INVALID || aby[Wire(g, pin)].gmw != INVALID)
    {
      assert HasEntry(aby, Wire(g, pin), s);
    }
  }

  lemma SharedIsPlain(p: Plain, sharings: Sharings, parties: map<GateId, Role>)
    requires WellShared(p, sharings, parties)
    ensures PlainOk(p)
  {
  }

  lemma ValueOfNone(p: Plain, g: GateId)
    requires PlainOk(p) && g in p.gates && p.gates[g].fanins == []
    ensures FaninCount(p.gates[g].op, p.gates[g].width) == 0
    ensures Value(p, Wire(g, 0)) == GateValue(p.gates[g], InputOf(p, g), [], 0)
  {
    GateShape(p, g);
    hide PlainOk;
  }

  ghost predicate AllCarry(p: Plain, wires: seq<AbyGate>, ids: seq<nat>, ws: seq<Wire>, s: Sharing) {
    |ids| == |ws| && forall k | 0 <= k < |ids| :: Carries(p, wires, ids[k], ws[k], s)
  }

  lemma AllCarryLater(p: Plain, wires: seq<AbyGate>, wires': seq<AbyGate>, ids: seq<nat>, ws: seq<Wire>, s: Sharing,
                      id: nat, w: Wire)
    requires AllCarry(p, wires, ids, ws, s) && WiresOk(wires') && wires <= wires' && Carries(p, wires', id, w, s)
    ensures AllCarry(p, wires', ids + [id], ws + [w], s)
  {
    hide Carries, WiresOk;
    forall k | 0 <= k < |ids| + 1
      ensures Carries(p, wires', (ids + [id])[k], (ws + [w])[k], s)
    {
      if k < |ids| {
        CarriesLater(p, wires, wires', ids[k], ws[k], s);
      }
    }
  }

  lemma CombineFits(p: Plain, wires: seq<AbyGate>, ids: seq<nat>, ws: seq<Wire>, s: Sharing)
    requires AllCarry(p, wires, ids, ws, s) && IsBoolSharing(s)
    requires s == YAO ==> forall w | w in ws :: w.gate in p.gates && p.gates[w.gate].op != INPUT
    ensures GateFits(wires, |wires|, ToNumber(ids, s))
  {
    hide PlainOk, WiresOk, Value, AbyValue;
    forall k | 0 <= k < |ids|
      ensures Operand(wires, |wires|, ids[k], s) && (s == YAO ==> !wires[ids[k]].InGate?)
    {
      assert Carries(p, wires, ids[k], ws[k], s);
      assert ws[k] in ws;
    }
  }

  /** The bits of a COMBINE are put together in the same order. */
  lemma CombineCarries(p: Plain, before: seq<AbyGate>, wires: seq<AbyGate>, ids: seq<nat>, g: GateId, s: Sharing)
    requires PlainOk(p) && g in p.gates && p.gates[g].op == COMBINE && p.gates[g].width == p.width == |p.gates[g].fanins|
    requires AllCarry(p, before, ids, p.gates[g].fanins, s) && wires == before + [ToNumber(ids, s)] && WiresOk(before) && WiresOk(wires)
    requires AbyValue(wires, p.width, |before|) == StepValue(ToNumber(ids, s), p.width, Values(before, p.width))
    ensures Carries(p, wires, |before|, Wire(g, 0), ARITH)
  {
    hide PlainOk, WiresOk, AbyValue, Compose, Low, Shr, FaninValues;
    var n := |p.gates[g].fanins|;
    var xs := seq(|ids|, k requires 0 <= k < |ids| => Values(before, p.width)(ids[k]));
    forall k: nat | k < n
      ensures xs[k] == FaninValues(p, g, n)[k]
    {
      assert Carries(p, before, ids[k], p.gates[g].fanins[k], s);
      FaninValueAt(p, g, n, k);
    }
    assert xs == FaninValues(p, g, n);
    CombineOperands(p, g);
    ComposeBelow(xs);
    ShrOfSmall(Compose(xs), p.width);
    GateShape(p, g);
  }

  lemma FanoutOfSplit(p: Plain, sharings: Sharings, parties: map<GateId, Role>, g: GateId, i: nat)
    requires WellShared(p, sharings, parties) && g in p.gates && p.gates[g].op == SPLIT && i < |p.gates[g].fanouts|
    ensures var t := p.gates[g].fanouts[i].target.gate;
            t in p.gates && (if t in sharings then sharings[t] == ARITH || IsBoolSharing(sharings[t]) else IsArithOp(p.gates[t].op))
  {
    assert FanoutMirrored(p.gates, g, i);
    var t := p.gates[g].fanouts[i].target;
    GateIsTyped(p, t.gate);
    GateIsTyped(p, g);
    assert p.gates[t.gate].fanins[t.pin] in p.gates[t.gate].fanins;
    assert SharedGate(p, sharings, t.gate);
  }

  lemma SharingsStay(p: Plain, sharings: Sharings, sharings': Sharings, parties: map<GateId, Role>, g: GateId)
    requires WellShared(p, sharings, parties) && g in p.gates && p.gates[g].op == SPLIT && g in sharings
    requires sharings'.Keys == sharings.Keys && IsBoolSharing(sharings'[g])
    requires forall h | h in sharings && h != g :: sharings'[h] == sharings[h]
    ensures WellShared(p, sharings', parties)
  {
    hide PlainOk, Mirrored;
    forall h | h in p.gates
      ensures SharedGate(p, sharings', h)
    {
      assert SharedGate(p, sharings, h);
    }
  }

  lemma OrValue(p: Plain, g: GateId, x: nat, y: nat, left: nat, right: nat)
    requires PlainOk(p) && g in p.gates && p.gates[g].op == OR && |p.gates[g].fanins| == 2
    requires forall w | w in p.gates[g].fanins :: IsBitPin(p.gates, p.width, w)
    requires p.gates[g].fanins[0].gate in p.gates && x == Value(p, p.gates[g].fanins[0])
    requires p.gates[g].fanins[1].gate in p.gates && y == Value(p, p.gates[g].fanins[1])
    requires left == (if x == 1 && y == 1 then 1 else 0) && right == (if x != y then 1 else 0)
    ensures Value(p, Wire(g, 0)) == if left != right then 1 else 0
  {
    hide PlainOk, Value, IsBitPin;
    assert p.gates[g].fanins[0] in p.gates[g].fanins && p.gates[g].fanins[1] in p.gates[g].fanins;
    BitValue(p, p.gates[g].fanins[0]);
    BitValue(p, p.gates[g].fanins[1]);
    ValueOfTwo(p, g);
  }

  lemma ReadyStays(p: Plain, aby: AbyMap, aby': AbyMap, ws: seq<Wire>)
    requires Grows(aby, aby')
    requires forall w | w in ws :: w.gate in p.gates && (p.gates[w.gate].op == INPUT || Available(p, aby, w))
    ensures forall w | w in ws :: w.gate in p.gates && (p.gates[w.gate].op == INPUT || Available(p, aby', w))
  {
    hide Grows, Available;
    forall w | w in ws
      ensures p.gates[w.gate].op == INPUT || Available(p, aby', w)
    {
      if p.gates[w.gate].op != INPUT {
        AvailableStays(p, aby, aby', w);
      }
    }
  }

  /** The value of a gate in terms of its one operand ... */
  lemma ValueOfOne(p: Plain, g: GateId, pin: nat)
    requires PlainOk(p) && g in p.gates && |p.gates[g].fanins| == 1
    ensures FaninCount(p.gates[g].op, p.gates[g].width) == 1 && p.gates[g].fanins[0].gate in p.gates
    ensures Value(p, Wire(g, pin)) == GateValue(p.gates[g], InputOf(p, g), [Value(p, p.gates[g].fanins[0])], pin)
  {
    GateShape(p, g);
    FaninValueAt(p, g, 1, 0);
    hide FaninValues, PlainOk;
    assert FaninValues(p, g, 1) == [Value(p, p.gates[g].fanins[0])];
  }

  /** ... or its two operands. */
  lemma ValueOfTwo(p: Plain, g: GateId)
    requires PlainOk(p) && g in p.gates && |p.gates[g].fanins| == 2
    ensures FaninCount(p.gates[g].op, p.gates[g].width) == 2
    ensures p.gates[g].fanins[0].gate in p.gates && p.gates[g].fanins[1].gate in p.gates
    ensures Value(p, Wire(g, 0))
            == GateValue(p.gates[g], InputOf(p, g), [Value(p, p.gates[g].fanins[0]), Value(p, p.gates[g].fanins[1])], 0)
  {
    GateShape(p, g);
    FaninValueAt(p, g, 2, 0);
    FaninValueAt(p, g, 2, 1);
    hide FaninValues, PlainOk;
    assert FaninValues(p, g, 2) == [Value(p, p.gates[g].fanins[0]), Value(p, p.gates[g].fanins[1])];
  }

  lemma NothingGrows(aby: AbyMap)
    ensures Grows(aby, aby)
  {
  }

  lemma InputFacts(p: Plain, sharings: Sharings, parties: map<GateId, Role>, w: Wire)
    requires WellShared(p, sharings, parties) && w.gate in p.gates && p.gates[w.gate].op == INPUT
    ensures w.gate in p.inputs && w.gate in parties && PlainOk(p)
    ensures Value(p, w) == p.inputs[w.gate]
  {
    GateIsTyped(p, w.gate);
    hide FaninValues;
  }

  lemma KindsDiffer(p: Plain, w: Wire)
    requires PlainOk(p)
    ensures !(IsBitPin(p.gates, p.width, w) && IsNumberPin(p.gates, p.width, w))
  {
  }

  lemma InputCarries(p: Plain, before: seq<AbyGate>, wires: seq<AbyGate>, w: Wire, s: Sharing, role: Role)
    requires PlainOk(p) && w.gate in p.gates && p.gates[w.gate].op == INPUT && w.gate in p.inputs
    requires WiresOk(wires) && wires == before + [InGate(s, p.inputs[w.gate], role)] && Value(p, w) == p.inputs[w.gate]
    ensures Carries(p, wires, |before|, w, s)
  {
    hide PlainOk, Value, WiresOk;
  }

  lemma EntryIn(p: Plain, wires: seq<AbyGate>, aby: AbyMap, w: Wire, s: Sharing)
    requires MapOk(p, wires, aby) && w in aby
    ensures Get(aby[w], s) != INVALID ==> 0 <= Get(aby[w], s) && Carries(p, wires, Get(aby[w], s), w, s)
  {
    hide Carries;
    assert EntryOk(p, wires, aby, w, s);
  }

  lemma InputAvailable(p: Plain, aby: AbyMap, w: Wire)
    requires InputsOk(p, aby) && w in aby
    ensures w.gate in p.gates && p.gates[w.gate].op == INPUT ==> Available(p, aby, w)
  {
  }

  /** The values on the wires that are there. */
  ghost function Values(wires: seq<AbyGate>, width: nat): (v: nat -> nat)
    requires WiresOk(wires)
  {
    (id: nat) => if id < |wires| then AbyValue(wires, width, id) else 0
  }

  /** What a gate computes from the values on its operands. */
  ghost function StepValue(g: AbyGate, width: nat, v: nat -> nat): (r: nat) {
    match g
    case InGate(_, value, _) => value
    case ConstantGate(_, value) => value
    case InvGate(_, a) => if v(a) == 0 then 1 else 0
    case AndGate(_, a, b) => if v(a) == 1 && v(b) == 1 then 1 else 0
    case XorGate(_, a, b) => if v(a) != v(b) then 1 else 0
    case AddGate(a, b) => Low(v(a) + v(b), width)
    case SubGate(a, b) => SubMod(v(a), v(b), width)
    case MulGate(a, b) => Low(v(a) * v(b), width)
    case ConvGate(_, a) => v(a)
    case ToNumber(bits, _) => Low(Compose(seq(|bits|, k requires 0 <= k < |bits| => v(bits[k]))), width)
    case BitGate(_, a, bit) => Shr(v(a), bit) % 2
    case OutGate(_, a) => v(a)
  }

  /** The operands of a new gate keep their values, and give its value. */
  lemma NewWire(p: Plain, before: seq<AbyGate>, g: AbyGate)
    requires WiresOk(before) && GateFits(before, |before|, g) && WiresOk(before + [g])
    ensures forall id: nat | id < |before| :: AbyValue(before + [g], p.width, id) == AbyValue(before, p.width, id)
    ensures AbyValue(before + [g], p.width, |before|) == StepValue(g, p.width, Values(before, p.width))
  {
    OldValues(before, g, p.width);
    NewValueOf(before, g, p.width);
  }

  lemma NewValueOf(before: seq<AbyGate>, g: AbyGate, width: nat)
    requires WiresOk(before) && GateFits(before, |before|, g) && WiresOk(before + [g])
    requires forall id: nat | id < |before| :: AbyValue(before + [g], width, id) == AbyValue(before, width, id)
    ensures AbyValue(before + [g], width, |before|) == StepValue(g, width, Values(before, width))
  {
    var wires := before + [g];
    assert GateFits(wires, |before|, wires[|before|]);
    if g.ToNumber? {
      BitsOfNumber(before, g, width);
    }
  }

  lemma BitsOfNumber(before: seq<AbyGate>, g: AbyGate, width: nat)
    requires WiresOk(before) && g.ToNumber? && GateFits(before, |before|, g) && WiresOk(before + [g])
    requires forall id: nat | id < |before| :: AbyValue(before + [g], width, id) == AbyValue(before, width, id)
    requires forall k | 0 <= k < |g.bits| :: g.bits[k] < |before|
    ensures BitValues(before + [g], width, |before|, g.bits)
            == seq(|g.bits|, k requires 0 <= k < |g.bits| => Values(before, width)(g.bits[k]))
  {
    hide AbyValue, BitValues, WiresOk, GateFits;
    var xs := BitValues(before + [g], width, |before|, g.bits);
    var ys := seq(|g.bits|, k requires 0 <= k < |g.bits| => Values(before, width)(g.bits[k]));
    forall k: nat | k < |g.bits|
      ensures xs[k] == ys[k]
    {
      BitValueAt(before + [g], width, |before|, g.bits, k);
      assert ys[k] == Values(before, width)(g.bits[k]) == AbyValue(before, width, g.bits[k]);
    }
  }

  lemma OldValues(before: seq<AbyGate>, g: AbyGate, width: nat)
    requires WiresOk(before) && WiresOk(before + [g])
    ensures forall id: nat | id < |before| :: AbyValue(before + [g], width, id) == AbyValue(before, width, id)
  {
    hide AbyValue, WiresOk;
    forall id: nat | id < |before|
      ensures AbyValue(before + [g], width, id) == AbyValue(before, width, id)
    {
      AbyValueStays(before, before + [g], width, id);
    }
  }
}
