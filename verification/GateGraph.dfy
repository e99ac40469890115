/**
 The gate graph of simple_circuitt: gates are named by numbers instead of addresses, and every wire
 is recorded at both ends, as a fanin of its target and a fanout of its source.
 */
module GateGraph {

  type GateId = nat

  datatype Op =
    | INPUT | OUTPUT
    | ONE | OR | AND | XOR | NOT
    | ADD | SUB | NEG | MUL | CONST
    | COMBINE | SPLIT

  /** wire_endpointt: an output pin of a gate when it is a source, an input pin when it is a target. */
  datatype Wire = Wire(gate: GateId, pin: nat)

  datatype Fanout = Fanout(pin: nat, target: Wire)

  datatype Gate = Gate(op: Op, width: nat, value: nat, fanins: seq<Wire>, fanouts: seq<Fanout>)

  type Gates = map<GateId, Gate>

  /** get_pin_counts(...).first */
  function FaninCount(op: Op, width: nat): (n: nat) {
    match op
    case ONE | INPUT | CONST => 0
    case NOT | OUTPUT | NEG | SPLIT => 1
    case COMBINE => width
    case _ => 2
  }

  predicate IsNonLinear(op: Op) { op == AND || op == OR || op == MUL }

  /** Fanin slot i of gate g is fed by a gate of the graph, which knows it. */
  ghost predicate FaninMirrored(gates: Gates, g: GateId, i: nat)
    requires g in gates && i < |gates[g].fanins|
  {
    var w := gates[g].fanins[i];
    w.gate in gates && Fanout(w.pin, Wire(g, i)) in gates[w.gate].fanouts
  }

  /** Fanout entry i of gate g names a fanin slot of the graph that holds this very wire. */
  ghost predicate FanoutMirrored(gates: Gates, g: GateId, i: nat)
    requires g in gates && i < |gates[g].fanouts|
  {
    var f := gates[g].fanouts[i];
    && f.target.gate in gates && f.target.pin < |gates[f.target.gate].fanins|
    && gates[f.target.gate].fanins[f.target.pin] == Wire(g, f.pin)
  }

  ghost predicate NoDuplicates<T>(s: seq<T>) {
    forall i, j | 0 <= i < j < |s| :: s[i] != s[j]
  }

  ghost predicate Mirrored(gates: Gates) {
    && (forall g, i: nat | g in gates && i < |gates[g].fanins| :: FaninMirrored(gates, g, i))
    && (forall g, i: nat | g in gates && i < |gates[g].fanouts| :: FanoutMirrored(gates, g, i))
    && (forall g | g in gates :: NoDuplicates(gates[g].fanouts))
  }

  /** rank numbers the gates so that every wire goes from a smaller number to a larger one. */
  ghost predicate Ranked(gates: Gates, rank: GateId -> nat) {
    forall g, w | g in gates && w in gates[g].fanins :: w.gate in gates && rank(w.gate) < rank(g)
  }

  /** The graph after add_fanout of b's output pin to an input pin. */
  ghost function Connected(gates: Gates, b: GateId, pin: nat, t: Wire): (gates': Gates)
    requires b in gates && t.gate in gates && t.pin < |gates[t.gate].fanins|
  {
    var linked := gates[t.gate := gates[t.gate].(fanins := gates[t.gate].fanins[t.pin := Wire(b, pin)])];
    linked[b := linked[b].(fanouts := linked[b].fanouts + [Fanout(pin, t)])]
  }

  /** add_fanout */
  method ConnectPins(gates: Gates, b: GateId, pin: nat, target: Wire) returns (gates': Gates)
    requires b in gates && target.gate in gates && target.pin < |gates[target.gate].fanins|
    ensures gates' == Connected(gates, b, pin, target)
  {
    var t := gates[target.gate];
    gates' := gates[target.gate := t.(fanins := t.fanins[target.pin := Wire(b, pin)])];
    gates' := gates'[b := gates'[b].(fanouts := gates'[b].fanouts + [Fanout(pin, target)])];
  }

  /** add_fanout changes one slot and one fanout list. */
  lemma ConnectedAt(gates: Gates, b: GateId, pin: nat, t: Wire, g: GateId)
    requires b in gates && t.gate in gates && t.pin < |gates[t.gate].fanins| && g in gates
    ensures var gates' := Connected(gates, b, pin, t);
            && gates'.Keys == gates.Keys
            && gates'[g].op == gates[g].op && gates'[g].width == gates[g].width && gates'[g].value == gates[g].value
            && gates'[g].fanins == (if g == t.gate then gates[g].fanins[t.pin := Wire(b, pin)] else gates[g].fanins)
            && gates'[g].fanouts == gates[g].fanouts + (if g == b then [Fanout(pin, t)] else [])
  {
  }
}
