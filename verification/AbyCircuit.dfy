/** The target language: circuits over the three sharings of ABY, with their plaintext meaning. */
module AbyCircuit {
  import opened Shifts
  import opened Words
  import opened PlainSimulation

  /** e_sharing: S_YAO, S_BOOL and S_ARITH */
  datatype Sharing = YAO | GMW | ARITH

  datatype Role = Client | Server

  /** One gate per Put...Gate function; operands are the numbers of earlier gates. */
  datatype AbyGate =
    | InGate(sharing: Sharing, value: nat, role: Role)
    | ConstantGate(sharing: Sharing, value: nat)
    | InvGate(sharing: Sharing, a: nat)
    | AndGate(sharing: Sharing, a: nat, b: nat)
    | XorGate(sharing: Sharing, a: nat, b: nat)
    | AddGate(a: nat, b: nat)
    | SubGate(a: nat, b: nat)
    | MulGate(a: nat, b: nat)
    | ConvGate(sharing: Sharing, a: nat)
    | ToNumber(bits: seq<nat>, from: Sharing)
    | BitGate(sharing: Sharing, a: nat, bit: nat)
    | OutGate(sharing: Sharing, a: nat)

  function SharingOf(g: AbyGate): (s: Sharing) {
    match g
    case AddGate(_, _) | SubGate(_, _) | MulGate(_, _) | ToNumber(_, _) => ARITH
    case InGate(s, _, _) => s
    case ConstantGate(s, _) => s
    case InvGate(s, _) => s
    case AndGate(s, _, _) => s
    case XorGate(s, _, _) => s
    case ConvGate(s, _) => s
    case BitGate(s, _, _) => s
    case OutGate(s, _) => s
  }

  ghost predicate Operand(wires: seq<AbyGate>, id: nat, a: nat, s: Sharing)
    requires id <= |wires|
  {
    a < id && SharingOf(wires[a]) == s
  }

  /**
   The operands of a gate are in its own sharing, and conversions are from the sharing they are for.
   A YAO input can be converted neither to GMW nor to a number.
   */
  ghost predicate GateFits(wires: seq<AbyGate>, id: nat, g: AbyGate)
    requires id <= |wires|
  {
    match g
    case InGate(_, _, _) => true
    case ConstantGate(_, _) => true
    case InvGate(s, a) => s != ARITH && Operand(wires, id, a, s)
    case AndGate(s, a, b) => s != ARITH && Operand(wires, id, a, s) && Operand(wires, id, b, s)
    case XorGate(s, a, b) => s != ARITH && Operand(wires, id, a, s) && Operand(wires, id, b, s)
    case AddGate(a, b) => Operand(wires, id, a, ARITH) && Operand(wires, id, b, ARITH)
    case SubGate(a, b) => Operand(wires, id, a, ARITH) && Operand(wires, id, b, ARITH)
    case MulGate(a, b) => Operand(wires, id, a, ARITH) && Operand(wires, id, b, ARITH)
    case ConvGate(s, a) =>
      (s == YAO && Operand(wires, id, a, GMW)) || (s == GMW && Operand(wires, id, a, YAO) && !wires[a].InGate?)
    case ToNumber(bits, from) =>
      from != ARITH && forall k | 0 <= k < |bits| :: Operand(wires, id, bits[k], from) && (from == YAO ==> !wires[bits[k]].InGate?)
    case BitGate(s, a, _) => s != ARITH && Operand(wires, id, a, ARITH)
    case OutGate(s, a) => Operand(wires, id, a, s)
  }

  ghost predicate WiresOk(wires: seq<AbyGate>) {
    forall id | 0 <= id < |wires| :: GateFits(wires, id, wires[id])
  }

  lemma FitsAt(wires: seq<AbyGate>, id: nat)
    requires WiresOk(wires) && id < |wires|
    ensures GateFits(wires, id, wires[id])
  {
  }

  /** The plaintext value on a wire; numbers have the given width. */
  ghost function AbyValue(wires: seq<AbyGate>, width: nat, id: nat): (v: nat)
    requires WiresOk(wires) && id < |wires|
    decreases id, 0
  {
    hide WiresOk, Low, Shr, Compose, SubMod;
    FitsAt(wires, id);
    match wires[id]
    case InGate(_, value, _) => value
    case ConstantGate(_, value) => value
    case InvGate(_, a) => if AbyValue(wires, width, a) == 0 then 1 else 0
    case AndGate(_, a, b) => if AbyValue(wires, width, a) == 1 && AbyValue(wires, width, b) == 1 then 1 else 0
    case XorGate(_, a, b) => if AbyValue(wires, width, a) != AbyValue(wires, width, b) then 1 else 0
    case AddGate(a, b) => Low(AbyValue(wires, width, a) + AbyValue(wires, width, b), width)
    case SubGate(a, b) => SubMod(AbyValue(wires, width, a), AbyValue(wires, width, b), width)
    case MulGate(a, b) => Low(AbyValue(wires, width, a) * AbyValue(wires, width, b), width)
    case ConvGate(_, a) => AbyValue(wires, width, a)
    case ToNumber(bits, _) => Low(Compose(BitValues(wires, width, id, bits)), width)
    case BitGate(_, a, bit) => Shr(AbyValue(wires, width, a), bit) % 2
    case OutGate(_, a) => AbyValue(wires, width, a)
  }

  ghost function BitValues(wires: seq<AbyGate>, width: nat, id: nat, bits: seq<nat>): (xs: seq<nat>)
    requires WiresOk(wires) && id < |wires| && forall k | 0 <= k < |bits| :: bits[k] < id
    ensures |xs| == |bits|
    decreases id, 0, |bits|
  {
    if bits == [] then []
    else BitValues(wires, width, id, bits[..|bits| - 1]) + [AbyValue(wires, width, bits[|bits| - 1])]
  }

  lemma {:induction false} BitValueAt(wires: seq<AbyGate>, width: nat, id: nat, bits: seq<nat>, k: nat)
    requires WiresOk(wires) && id < |wires| && (forall k | 0 <= k < |bits| :: bits[k] < id) && k < |bits|
    ensures BitValues(wires, width, id, bits)[k] == AbyValue(wires, width, bits[k])
    decreases |bits|
  {
    hide AbyValue, WiresOk;
    if k < |bits| - 1 {
      BitValueAt(wires, width, id, bits[..|bits| - 1], k);
    }
  }

  lemma FitsLater(wires: seq<AbyGate>, wires': seq<AbyGate>, id: nat, g: AbyGate)
    requires wires <= wires' && id <= |wires| && GateFits(wires, id, g)
    ensures GateFits(wires', id, g)
  {
  }

  lemma AppendKeepsWires(wires: seq<AbyGate>, g: AbyGate)
    requires WiresOk(wires) && GateFits(wires, |wires|, g)
    ensures WiresOk(wires + [g])
  {
    hide GateFits;
    var wires' := wires + [g];
    forall id | 0 <= id < |wires'|
      ensures GateFits(wires', id, wires'[id])
    {
      FitsLater(wires, wires', id, wires'[id]);
    }
  }

  /** More gates change no value. */
  lemma {:induction false} AbyValueStays(wires: seq<AbyGate>, wires': seq<AbyGate>, width: nat, id: nat)
    requires WiresOk(wires) && WiresOk(wires') && wires <= wires' && id < |wires|
    ensures AbyValue(wires', width, id) == AbyValue(wires, width, id)
    decreases id, 0
  {
    assert GateFits(wires, id, wires[id]);
    hide WiresOk;
    match wires[id]
    case InvGate(_, a) => AbyValueStays(wires, wires', width, a);
    case AndGate(_, a, b) => AbyValueStays(wires, wires', width, a); AbyValueStays(wires, wires', width, b);
    case XorGate(_, a, b) => AbyValueStays(wires, wires', width, a); AbyValueStays(wires, wires', width, b);
    case AddGate(a, b) => AbyValueStays(wires, wires', width, a); AbyValueStays(wires, wires', width, b);
    case SubGate(a, b) => AbyValueStays(wires, wires', width, a); AbyValueStays(wires, wires', width, b);
    case MulGate(a, b) => AbyValueStays(wires, wires', width, a); AbyValueStays(wires, wires', width, b);
    case ConvGate(_, a) => AbyValueStays(wires, wires', width, a);
    case ToNumber(bits, _) => BitValuesStay(wires, wires', width, id, bits);
    case BitGate(_, a, _) => AbyValueStays(wires, wires', width, a);
    case OutGate(_, a) => AbyValueStays(wires, wires', width, a);
    case _ =>
  }

  lemma {:induction false} BitValuesStay(wires: seq<AbyGate>, wires': seq<AbyGate>, width: nat, id: nat, bits: seq<nat>)
    requires WiresOk(wires) && WiresOk(wires') && wires <= wires' && id < |wires| && forall k | 0 <= k < |bits| :: bits[k] < id
    ensures BitValues(wires', width, id, bits) == BitValues(wires, width, id, bits)
    decreases id, 0, |bits|
  {
    hide AbyValue, WiresOk;
    if bits != [] {
      BitValuesStay(wires, wires', width, id, bits[..|bits| - 1]);
      AbyValueStays(wires, wires', width, bits[|bits| - 1]);
    }
  }

  /** ABYParty with its circuits: gates are only ever added. */
  class AbyParty {
    const width: nat
    var wires: seq<AbyGate>

    constructor (width: nat)
      ensures this.width == width && wires == []
    {
      this.width := width;
      wires := [];
    }

    method Put(g: AbyGate) returns (id: nat)
      requires WiresOk(wires) && GateFits(wires, |wires|, g)
      modifies this
      ensures WiresOk(wires) && wires == old(wires) + [g] && id == |old(wires)|
    {
      AppendKeepsWires(wires, g);
      id := |wires|;
      wires := wires + [g];
    }
  }
}
