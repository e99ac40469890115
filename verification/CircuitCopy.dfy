/** The gate graph part of simple_circuitt's copy constructor. */
module CircuitCopy {
  import opened GateGraph

  datatype Source = Source(gates: Gates, one: GateId, zero: GateId, roots: set<GateId>)

  /** Old gates to new gates. */
  type Translation = map<GateId, GateId>

  /** How many fanouts of each translated gate have been copied. */
  type Progress = map<GateId, nat>

  /** The new gates are numbered in the order of their creation; 0 is the null pointer. */
  const NULL: GateId := 0
  const NEW_ONE: GateId := 1
  const NEW_ZERO: GateId := 2
  const EMPTY_SLOT: Wire := Wire(NULL, 0)

  /** What the functions that create gates guarantee. */
  ghost predicate GateOk(gate: Gate) {
    && |gate.fanins| == FaninCount(gate.op, gate.width)
    && (gate.op == SPLIT ==> gate.width == 1)
    && (gate.op == INPUT || gate.op == OUTPUT ==> gate.value == 0)
    && (gate.op == OUTPUT ==> gate.fanouts == [])
  }

  ghost predicate SourceOk(s: Source) {
    && Mirrored(s.gates) && (forall g | g in s.gates :: GateOk(s.gates[g]))
    && s.one in s.gates && s.gates[s.one].op == ONE && s.gates[s.one].width == 1 && s.gates[s.one].value == 0
    && (forall g | g in s.gates && s.gates[g].op == ONE :: g == s.one)
    && s.zero in s.gates && s.gates[s.zero].op == NOT && s.gates[s.zero].width == 1 && s.gates[s.zero].value == 0
    && s.gates[s.zero].fanins == [Wire(s.one, 0)]
    && (forall g :: g in s.roots <==> g in s.gates && s.gates[g].fanins == [])
  }

  // ----- what has been copied so far -----

  ghost predicate Injective(t: Translation) {
    forall g, h | g in t && h in t && t[g] == t[h] :: g == h
  }

  ghost predicate TranslationOk(s: Source, new_: Gates, t: Translation, next: nat) {
    && t.Keys <= s.gates.Keys && Injective(t) && 2 < next
    && (forall g | g in t :: t[g] in new_ && (t[g] == NEW_ONE <==> g == s.one) && (t[g] == NEW_ZERO <==> g == s.zero))
    && (forall n | n in new_ :: NULL < n < next && (n == NEW_ONE || n == NEW_ZERO || exists g :: g in t && t[g] == n))
    && NEW_ONE in new_ && NEW_ZERO in new_
  }

  ghost function Translate(t: Translation, w: Wire): (w': Wire)
    requires w.gate in t
  {
    Wire(t[w.gate], w.pin)
  }

  ghost predicate TargetsIn(t: Translation, es: seq<Fanout>) {
    forall e | e in es :: e.target.gate in t
  }

  /** The copies of fanouts; the wire into ZERO exists from the start. */
  ghost function Copies(s: Source, t: Translation, es: seq<Fanout>): (copies: seq<Fanout>)
    requires TargetsIn(t, es)
  {
    if es == [] then []
    else
      var e := es[|es| - 1];
      Copies(s, t, es[..|es| - 1])
      + if e.target.gate == s.zero then [] else [Fanout(e.pin, Translate(t, e.target))]
  }

  ghost function FirstFanouts(s: Source, g: GateId): (es: seq<Fanout>) {
    if g == s.one then [Fanout(0, Wire(NEW_ZERO, 0))] else []
  }

  ghost predicate ProgressOk(s: Source, t: Translation, done: Progress) {
    && done.Keys == t.Keys && t.Keys <= s.gates.Keys
    && forall g | g in t :: done[g] <= |s.gates[g].fanouts| && TargetsIn(t, s.gates[g].fanouts[..done[g]])
  }

  /** The copy of g has its data, and its fanouts as far as they were copied. */
  ghost predicate GateCopied(s: Source, new_: Gates, t: Translation, done: Progress, g: GateId)
    requires ProgressOk(s, t, done) && g in t
  {
    && t[g] in new_
    && var a, b := s.gates[g], new_[t[g]];
       && b.op == a.op && b.width == a.width && b.value == a.value && |b.fanins| == |a.fanins|
       && b.fanouts == FirstFanouts(s, g) + Copies(s, t, a.fanouts[..done[g]])
  }

  /** The wire into slot j of h has been copied. */
  ghost predicate WireDone(s: Source, t: Translation, done: Progress, h: GateId, j: nat)
    requires ProgressOk(s, t, done) && h in s.gates && j < |s.gates[h].fanins|
  {
    var w := s.gates[h].fanins[j];
    w.gate in t && (h == s.zero || Fanout(w.pin, Wire(h, j)) in s.gates[w.gate].fanouts[..done[w.gate]])
  }

  ghost predicate SlotCopied(s: Source, new_: Gates, t: Translation, done: Progress, h: GateId, j: nat)
    requires ProgressOk(s, t, done) && h in t && j < |s.gates[h].fanins|
  {
    && t[h] in new_ && j < |new_[t[h]].fanins|
    && new_[t[h]].fanins[j]
       == if WireDone(s, t, done, h, j) then Translate(t, s.gates[h].fanins[j]) else EMPTY_SLOT
  }

  ghost predicate GatesCopied(s: Source, new_: Gates, t: Translation, done: Progress)
    requires ProgressOk(s, t, done)
  {
    forall g | g in t :: GateCopied(s, new_, t, done, g)
  }

  ghost predicate SlotsCopied(s: Source, new_: Gates, t: Translation, done: Progress)
    requires ProgressOk(s, t, done)
  {
    forall h, j: nat | h in t && j < |s.gates[h].fanins| :: SlotCopied(s, new_, t, done, h, j)
  }

  /** The constant gates as the constructor makes them, until they are translated. */
  ghost predicate ConstantsOk(s: Source, new_: Gates, t: Translation) {
    && NEW_ONE in new_ && NEW_ZERO in new_
    && (s.one !in t ==> new_[NEW_ONE] == Gate(ONE, 1, 0, [], [Fanout(0, Wire(NEW_ZERO, 0))]))
    && (s.zero !in t ==> new_[NEW_ZERO] == Gate(NOT, 1, 0, [Wire(NEW_ONE, 0)], []))
    && (s.one !in t ==> s.zero !in t)
  }

  ghost predicate CopyOk(s: Source, new_: Gates, t: Translation, next: nat, done: Progress) {
    && TranslationOk(s, new_, t, next) && ProgressOk(s, t, done)
    && GatesCopied(s, new_, t, done) && SlotsCopied(s, new_, t, done) && ConstantsOk(s, new_, t)
  }

  // ----- a gate gets its copy -----

  ghost predicate Extends(t: Translation, t': Translation) {
    forall g | g in t :: g in t' && t'[g] == t[g]
  }

  lemma {:induction false} CopiesStay(s: Source, t: Translation, t': Translation, es: seq<Fanout>)
    requires TargetsIn(t, es) && Extends(t, t')
    ensures TargetsIn(t', es) && Copies(s, t', es) == Copies(s, t, es)
    decreases |es|
  {
    if es != [] {
      CopiesStay(s, t, t', es[..|es| - 1]);
      assert es[|es| - 1] in es;
    }
  }

  /** n can be the copy of g: it has g's data, and no wires except the one from ONE to ZERO. */
  ghost predicate StartGate(s: Source, new_: Gates, g: GateId, n: GateId)
    requires g in s.gates && n in new_
  {
    && new_[n].op == s.gates[g].op && new_[n].width == s.gates[g].width && new_[n].value == s.gates[g].value
    && |new_[n].fanins| == |s.gates[g].fanins| && new_[n].fanouts == FirstFanouts(s, g)
    && forall j | 0 <= j < |new_[n].fanins| ::
         new_[n].fanins[j] == if g == s.zero then Wire(NEW_ONE, 0) else EMPTY_SLOT
  }

  ghost predicate CanTranslate(s: Source, new_: Gates, new': Gates, t: Translation, next: nat, done: Progress, g: GateId, n: GateId) {
    && SourceOk(s) && CopyOk(s, new_, t, next, done) && g in s.gates && g !in t && n in new'
    && (forall m | m in new_ :: m in new' && new'[m] == new_[m])
    && StartGate(s, new', g, n) && (g == s.one ==> s.zero !in t) && (g == s.zero ==> s.one in t)
  }

  lemma TranslatedProgress(s: Source, new_: Gates, new': Gates, t: Translation, next: nat, done: Progress, g: GateId, n: GateId)
    requires CanTranslate(s, new_, new', t, next, done, g, n)
    ensures ProgressOk(s, t[g := n], done[g := 0])
  {
    hide SourceOk, GatesCopied, SlotsCopied, TranslationOk, ConstantsOk, StartGate;
  }

  lemma TranslatedGates(s: Source, new_: Gates, new': Gates, t: Translation, next: nat, done: Progress, g: GateId, n: GateId)
    requires CanTranslate(s, new_, new', t, next, done, g, n) && ProgressOk(s, t[g := n], done[g := 0])
    ensures GatesCopied(s, new', t[g := n], done[g := 0])
  {
    hide SourceOk, SlotsCopied, TranslationOk, ConstantsOk, Copies;
    var t', done' := t[g := n], done[g := 0];
    NoCopies(s, t');
    forall h | h in t'
      ensures GateCopied(s, new', t', done', h)
    {
      if h != g {
        assert GateCopied(s, new_, t, done, h);
        CopiesStay(s, t, t', s.gates[h].fanouts[..done[h]]);
      } else {
        assert s.gates[g].fanouts[..0] == [];
      }
    }
  }

  lemma NoCopies(s: Source, t: Translation)
    ensures Copies(s, t, []) == []
  {
  }

  lemma OldSlot(s: Source, new_: Gates, new': Gates, t: Translation, next: nat, done: Progress, g: GateId, n: GateId,
                h: GateId, j: nat)
    requires CanTranslate(s, new_, new', t, next, done, g, n) && ProgressOk(s, t[g := n], done[g := 0])
    requires h in t && j < |s.gates[h].fanins|
    ensures SlotCopied(s, new', t[g := n], done[g := 0], h, j)
  {
    hide GatesCopied, ConstantsOk, TranslationOk, StartGate;
    assert SlotCopied(s, new_, t, done, h, j);
    hide SlotsCopied, ProgressOk;
    ZeroReadsOne(s, h, j);
    hide SourceOk;
  }

  lemma ZeroReadsOne(s: Source, h: GateId, j: nat)
    requires SourceOk(s) && h in s.gates && j < |s.gates[h].fanins|
    ensures h == s.zero ==> s.gates[h].fanins[j] == Wire(s.one, 0)
    ensures h == s.one ==> false
    ensures s.zero != s.one
  {
    hide Mirrored;
    assert GateOk(s.gates[s.one]);
  }

  lemma NewSlot(s: Source, new_: Gates, new': Gates, t: Translation, next: nat, done: Progress, g: GateId, n: GateId, j: nat)
    requires CanTranslate(s, new_, new', t, next, done, g, n) && ProgressOk(s, t[g := n], done[g := 0])
    requires j < |s.gates[g].fanins|
    ensures SlotCopied(s, new', t[g := n], done[g := 0], g, j)
  {
    hide GatesCopied, SlotsCopied, ConstantsOk;
    ZeroReadsOne(s, g, j);
    var w := s.gates[g].fanins[j];
    if w.gate in t {
      assert TargetsIn(t, s.gates[w.gate].fanouts[..done[w.gate]]);
    }
    hide SourceOk;
  }

  lemma TranslateKeepsCopy(s: Source, new_: Gates, new': Gates, t: Translation, next: nat, next': nat, done: Progress,
                           g: GateId, n: GateId)
    requires CanTranslate(s, new_, new', t, next, done, g, n) && TranslationOk(s, new', t[g := n], next')
    ensures CopyOk(s, new', t[g := n], next', done[g := 0])
  {
    var t', done' := t[g := n], done[g := 0];
    TranslatedProgress(s, new_, new', t, next, done, g, n);
    TranslatedGates(s, new_, new', t, next, done, g, n);
    hide GatesCopied, SlotCopied, StartGate, ProgressOk, TranslationOk;
    ZeroIsNotOne(s);
    assert ConstantsOk(s, new', t');
    hide ConstantsOk, SourceOk, SlotsCopied;
    forall h, j: nat | h in t' && j < |s.gates[h].fanins|
      ensures SlotCopied(s, new', t', done', h, j)
    {
      if h == g {
        NewSlot(s, new_, new', t, next, done, g, n, j);
      } else {
        OldSlot(s, new_, new', t, next, done, g, n, h, j);
      }
    }
    ZeroIsNotOne(s);
  }

  lemma ZeroIsNotOne(s: Source)
    requires SourceOk(s)
    ensures s.zero != s.one
  {
  }

  // ----- a wire gets its copy -----

  ghost predicate CanCopyWire(s: Source, new_: Gates, t: Translation, next: nat, done: Progress, g: GateId) {
    && SourceOk(s) && CopyOk(s, new_, t, next, done)
    && g in t && done[g] < |s.gates[g].fanouts| && s.gates[g].fanouts[done[g]].target.gate in t
  }

  /** The next fanout of g ends in a slot of a translated gate. */
  lemma NextWire(s: Source, new_: Gates, t: Translation, next: nat, done: Progress, g: GateId)
    requires CanCopyWire(s, new_, t, next, done, g)
    ensures var e := s.gates[g].fanouts[done[g]];
            && e.target.pin < |s.gates[e.target.gate].fanins|
            && s.gates[e.target.gate].fanins[e.target.pin] == Wire(g, e.pin)
            && (e.target.gate == s.zero ==> g == s.one)
            && e !in s.gates[g].fanouts[..done[g]]
            && t[g] in new_ && t[e.target.gate] in new_ && e.target.pin < |new_[t[e.target.gate]].fanins|
  {
    hide SlotsCopied, ConstantsOk, Copies, GateOk;
    var k := done[g];
    assert FanoutMirrored(s.gates, g, k) && NoDuplicates(s.gates[g].fanouts);
    assert GateCopied(s, new_, t, done, g) && GateCopied(s, new_, t, done, s.gates[g].fanouts[k].target.gate);
  }

  /** add_fanout finds the slot empty. */
  lemma SlotIsEmpty(s: Source, new_: Gates, t: Translation, next: nat, done: Progress, g: GateId)
    requires CanCopyWire(s, new_, t, next, done, g)
    ensures var e := s.gates[g].fanouts[done[g]];
            && t[e.target.gate] in new_ && e.target.pin < |new_[t[e.target.gate]].fanins|
            && (e.target.gate != s.zero ==> new_[t[e.target.gate]].fanins[e.target.pin] == EMPTY_SLOT)
  {
    hide GatesCopied, ConstantsOk, SourceOk, TranslationOk;
    NextWire(s, new_, t, next, done, g);
    var e := s.gates[g].fanouts[done[g]];
    assert SlotCopied(s, new_, t, done, e.target.gate, e.target.pin);
  }

  ghost function WithWire(s: Source, new_: Gates, t: Translation, g: GateId, e: Fanout): (new': Gates)
    requires g in t && e.target.gate in t && t[g] in new_ && t[e.target.gate] in new_
    requires e.target.pin < |new_[t[e.target.gate]].fanins|
  {
    if e.target.gate == s.zero then new_ else Connected(new_, t[g], e.pin, Translate(t, e.target))
  }

  /** The new wire changes one fanout list and one slot. */
  lemma WithWireAt(s: Source, new_: Gates, t: Translation, g: GateId, e: Fanout, h: GateId)
    requires g in t && e.target.gate in t && t[g] in new_ && t[e.target.gate] in new_
    requires e.target.pin < |new_[t[e.target.gate]].fanins| && Injective(t) && h in t && t[h] in new_
    ensures var new' := WithWire(s, new_, t, g, e);
            var a, b := new_[t[h]], new'[t[h]];
            && b.op == a.op && b.width == a.width && b.value == a.value && |b.fanins| == |a.fanins|
            && b.fanouts == a.fanouts + (if h == g && e.target.gate != s.zero then [Fanout(e.pin, Translate(t, e.target))] else [])
            && forall j: nat | j < |a.fanins| ::
                 b.fanins[j] == if Wire(h, j) == e.target && h != s.zero then Wire(t[g], e.pin) else a.fanins[j]
  {
  }

  lemma CopiesStep(s: Source, t: Translation, es: seq<Fanout>, k: nat)
    requires k < |es| && TargetsIn(t, es[..k]) && es[k].target.gate in t
    ensures TargetsIn(t, es[..k + 1])
    ensures Copies(s, t, es[..k + 1])
            == Copies(s, t, es[..k])
               + if es[k].target.gate == s.zero then [] else [Fanout(es[k].pin, Translate(t, es[k].target))]
  {
    assert es[..k + 1] == es[..k] + [es[k]];
    assert es[..k + 1][..k] == es[..k];
  }

  lemma WireProgress(s: Source, new_: Gates, t: Translation, next: nat, done: Progress, g: GateId)
    requires CanCopyWire(s, new_, t, next, done, g)
    ensures ProgressOk(s, t, done[g := done[g] + 1])
  {
    hide SourceOk, GatesCopied, SlotsCopied, TranslationOk, ConstantsOk, Copies;
    CopiesStep(s, t, s.gates[g].fanouts, done[g]);
  }

  lemma WireGates(s: Source, new_: Gates, t: Translation, next: nat, done: Progress, g: GateId, new': Gates)
    requires CanCopyWire(s, new_, t, next, done, g) && ProgressOk(s, t, done[g := done[g] + 1])
    requires var e := s.gates[g].fanouts[done[g]];
             && t[g] in new_ && t[e.target.gate] in new_ && e.target.pin < |new_[t[e.target.gate]].fanins|
             && new' == WithWire(s, new_, t, g, e)
    ensures GatesCopied(s, new', t, done[g := done[g] + 1])
  {
    hide SourceOk, SlotsCopied, ConstantsOk, Copies, WithWire;
    var e := s.gates[g].fanouts[done[g]];
    var done' := done[g := done[g] + 1];
    CopiesStep(s, t, s.gates[g].fanouts, done[g]);
    hide ProgressOk;
    forall h | h in t
      ensures GateCopied(s, new', t, done', h)
    {
      assert GateCopied(s, new_, t, done, h);
      WithWireAt(s, new_, t, g, e, h);
      WithWireKeys(s, new_, t, g, e);
    }
  }

  lemma WithWireKeys(s: Source, new_: Gates, t: Translation, g: GateId, e: Fanout)
    requires g in t && e.target.gate in t && t[g] in new_ && t[e.target.gate] in new_
    requires e.target.pin < |new_[t[e.target.gate]].fanins|
    ensures WithWire(s, new_, t, g, e).Keys == new_.Keys
    ensures forall n | n in new_ && n != t[g] && n != t[e.target.gate] :: WithWire(s, new_, t, g, e)[n] == new_[n]
  {
  }

  lemma WireSlot(s: Source, new_: Gates, t: Translation, next: nat, done: Progress, g: GateId, new': Gates, h: GateId, j: nat)
    requires CanCopyWire(s, new_, t, next, done, g) && ProgressOk(s, t, done[g := done[g] + 1])
    requires var e := s.gates[g].fanouts[done[g]];
             && t[g] in new_ && t[e.target.gate] in new_ && e.target.pin < |new_[t[e.target.gate]].fanins|
             && new' == WithWire(s, new_, t, g, e)
    requires h in t && j < |s.gates[h].fanins|
    ensures SlotCopied(s, new', t, done[g := done[g] + 1], h, j)
  {
    hide SourceOk, GatesCopied, ConstantsOk, Copies, WithWire;
    var e := s.gates[g].fanouts[done[g]];
    NextWire(s, new_, t, next, done, g);
    assert SlotCopied(s, new_, t, done, h, j);
    assert Injective(t);
    hide SlotsCopied, ProgressOk, TranslationOk;
    hide Injective;
    WithWireAt(s, new_, t, g, e, h);
    WithWireKeys(s, new_, t, g, e);
    var w := s.gates[h].fanins[j];
    var es, k := s.gates[g].fanouts, done[g];
    assert es[..k + 1] == es[..k] + [e];
    assert Fanout(w.pin, Wire(h, j)) in es[..k + 1] <==> Fanout(w.pin, Wire(h, j)) in es[..k] || Fanout(w.pin, Wire(h, j)) == e;
  }

  lemma CopyWireKeeps(s: Source, new_: Gates, t: Translation, next: nat, done: Progress, g: GateId, new': Gates)
    requires CanCopyWire(s, new_, t, next, done, g)
    requires var e := s.gates[g].fanouts[done[g]];
             && t[g] in new_ && t[e.target.gate] in new_ && e.target.pin < |new_[t[e.target.gate]].fanins|
             && new' == WithWire(s, new_, t, g, e)
    ensures CopyOk(s, new', t, next, done[g := done[g] + 1])
  {
    hide SourceOk, SlotCopied, GatesCopied, ConstantsOk, TranslationOk;
    var done' := done[g := done[g] + 1];
    WireProgress(s, new_, t, next, done, g);
    WireGates(s, new_, t, next, done, g, new');
    WireConstants(s, new_, t, next, done, g, new');
    hide ProgressOk, WithWire;
    forall h, j: nat | h in t && j < |s.gates[h].fanins|
      ensures SlotCopied(s, new', t, done', h, j)
    {
      WireSlot(s, new_, t, next, done, g, new', h, j);
    }
  }

  lemma WireConstants(s: Source, new_: Gates, t: Translation, next: nat, done: Progress, g: GateId, new': Gates)
    requires CanCopyWire(s, new_, t, next, done, g)
    requires var e := s.gates[g].fanouts[done[g]];
             && t[g] in new_ && t[e.target.gate] in new_ && e.target.pin < |new_[t[e.target.gate]].fanins|
             && new' == WithWire(s, new_, t, g, e)
    ensures TranslationOk(s, new', t, next) && ConstantsOk(s, new', t)
  {
    hide SourceOk, GatesCopied, SlotsCopied;
    WithWireKeys(s, new_, t, g, s.gates[g].fanouts[done[g]]);
    hide ProgressOk, WithWire;
  }

  // ----- the result -----

  ghost function TranslateAll(t: Translation, es: seq<Fanout>): (copies: seq<Fanout>)
    requires TargetsIn(t, es)
  {
    if es == [] then []
    else
      var e := es[|es| - 1];
      TranslateAll(t, es[..|es| - 1]) + [Fanout(e.pin, Translate(t, e.target))]
  }

  /** new_ is the same graph under other names: every gate and every wire once, pins included. */
  ghost predicate IsCopy(s: Source, new_: Gates, t: Translation) {
    && t.Keys == s.gates.Keys && Injective(t)
    && (forall n | n in new_ :: exists g :: g in t && t[g] == n)
    && (forall g | g in t :: IsGateCopy(s, new_, t, g))
    && s.one in t && s.zero in t && t[s.one] == NEW_ONE && t[s.zero] == NEW_ZERO
  }

  ghost predicate IsGateCopy(s: Source, new_: Gates, t: Translation, g: GateId)
    requires t.Keys == s.gates.Keys && g in t
  {
    && t[g] in new_
    && var a, b := s.gates[g], new_[t[g]];
       && b.op == a.op && b.width == a.width && b.value == a.value && |b.fanins| == |a.fanins|
       && (forall j | 0 <= j < |a.fanins| :: a.fanins[j].gate in t && b.fanins[j] == Translate(t, a.fanins[j]))
       && TargetsIn(t, a.fanouts) && multiset(b.fanouts) == multiset(TranslateAll(t, a.fanouts))
  }

  ghost function ZeroEdges(s: Source, es: seq<Fanout>): (zs: seq<Fanout>)
    ensures forall e | e in zs :: e in es
  {
    if es == [] then []
    else
      var e := es[|es| - 1];
      ZeroEdges(s, es[..|es| - 1]) + if e.target.gate == s.zero then [e] else []
  }

  lemma {:induction false} CopiesAndZeroEdges(s: Source, t: Translation, es: seq<Fanout>)
    requires TargetsIn(t, es)
    ensures multiset(TranslateAll(t, ZeroEdges(s, es))) + multiset(Copies(s, t, es)) == multiset(TranslateAll(t, es))
    decreases |es|
  {
    hide TranslateAll;
    TranslateNone(t);
    if es != [] {
      var front, e := es[..|es| - 1], es[|es| - 1];
      var copy := Fanout(e.pin, Translate(t, e.target));
      assert es == front + [e];
      CopiesAndZeroEdges(s, t, front);
      TranslateOneMore(t, front, e);
      if e.target.gate == s.zero {
        TranslateOneMore(t, ZeroEdges(s, front), e);
        assert ZeroEdges(s, es) == ZeroEdges(s, front) + [e];
        assert Copies(s, t, es) == Copies(s, t, front);
      } else {
        assert ZeroEdges(s, es) == ZeroEdges(s, front);
        assert Copies(s, t, es) == Copies(s, t, front) + [copy];
      }
    }
  }

  lemma TranslateNone(t: Translation)
    ensures TranslateAll(t, []) == []
  {
  }

  lemma TranslateOneMore(t: Translation, es: seq<Fanout>, e: Fanout)
    requires TargetsIn(t, es) && e.target.gate in t
    ensures TargetsIn(t, es + [e]) && TranslateAll(t, es + [e]) == TranslateAll(t, es) + [Fanout(e.pin, Translate(t, e.target))]
  {
    assert (es + [e])[..|es|] == es;
  }

  lemma {:induction false} ZeroEdgesOnce(s: Source, es: seq<Fanout>, e: Fanout)
    requires NoDuplicates(es) && e.target.gate == s.zero
    requires forall f | f in es && f.target.gate == s.zero :: f == e
    ensures ZeroEdges(s, es) == if e in es then [e] else []
    decreases |es|
  {
    if es != [] {
      var front := es[..|es| - 1];
      assert es == front + [es[|es| - 1]];
      ZeroEdgesOnce(s, front, e);
    }
  }

  /** Only ONE feeds ZERO, over one wire. */
  lemma ZeroEdgesOf(s: Source, g: GateId)
    requires SourceOk(s) && g in s.gates
    ensures ZeroEdges(s, s.gates[g].fanouts) == if g == s.one then [Fanout(0, Wire(s.zero, 0))] else []
  {
    hide GateOk;
    var es, e := s.gates[g].fanouts, Fanout(0, Wire(s.zero, 0));
    assert FaninMirrored(s.gates, s.zero, 0) && NoDuplicates(es);
    forall f | f in es && f.target.gate == s.zero
      ensures f == e && g == s.one
    {
      var i: nat :| i < |es| && es[i] == f;
      assert FanoutMirrored(s.gates, g, i);
    }
    ZeroEdgesOnce(s, es, e);
  }

  lemma {:induction false} EmptyTranslation(t: Translation, e: Fanout)
    requires e.target.gate in t
    ensures TranslateAll(t, []) == [] && TranslateAll(t, [e]) == [Fanout(e.pin, Translate(t, e.target))]
  {
  }

  lemma FanoutsComplete(s: Source, new_: Gates, t: Translation, next: nat, done: Progress, g: GateId)
    requires SourceOk(s) && CopyOk(s, new_, t, next, done) && g in t && done[g] == |s.gates[g].fanouts|
    ensures t[g] in new_ && TargetsIn(t, s.gates[g].fanouts)
    ensures multiset(new_[t[g]].fanouts) == multiset(TranslateAll(t, s.gates[g].fanouts))
  {
    hide SlotsCopied, ConstantsOk, Mirrored, GateOk, Copies, TranslateAll, ZeroEdges;
    var es := s.gates[g].fanouts;
    assert es[..done[g]] == es;
    assert GateCopied(s, new_, t, done, g);
    CopiesAndZeroEdges(s, t, es);
    ZeroEdgesOf(s, g);
    if g == s.one {
      var e := Fanout(0, Wire(s.zero, 0));
      assert e in ZeroEdges(s, es);
      EmptyTranslation(t, e);
    } else {
      EmptyTranslation(t, Fanout(0, Wire(g, 0)));
    }
  }

  /** Nothing is left to do: every gate is there. */
  lemma {:induction false} AllTranslated(s: Source, rank: GateId -> nat, t: Translation, done: Progress, g: GateId)
    requires SourceOk(s) && Ranked(s.gates, rank) && s.roots <= t.Keys && ProgressOk(s, t, done) && g in s.gates
    requires forall h | h in t :: done[h] == |s.gates[h].fanouts|
    ensures g in t
    decreases rank(g)
  {
    hide GateOk;
    if s.gates[g].fanins != [] {
      var w := s.gates[g].fanins[0];
      assert w in s.gates[g].fanins && FaninMirrored(s.gates, g, 0);
      AllTranslated(s, rank, t, done, w.gate);
      var es := s.gates[w.gate].fanouts;
      assert es[..done[w.gate]] == es;
      assert Fanout(w.pin, Wire(g, 0)) in es;
    }
  }

  lemma FinishedGate(s: Source, new_: Gates, t: Translation, next: nat, done: Progress, g: GateId)
    requires SourceOk(s) && CopyOk(s, new_, t, next, done) && t.Keys == s.gates.Keys && g in t
    requires forall h | h in t :: done[h] == |s.gates[h].fanouts|
    ensures IsGateCopy(s, new_, t, g)
  {
    FanoutsComplete(s, new_, t, next, done, g);
    DataCopied(s, new_, t, next, done, g);
    forall j | 0 <= j < |s.gates[g].fanins|
      ensures SlotFinished(s, new_, t, g, j)
    {
      FinishedSlot(s, new_, t, next, done, g, j);
    }
    hide Copies, TranslateAll, CopyOk, ProgressOk, SourceOk, Translate, TargetsIn;
    assert forall j | 0 <= j < |s.gates[g].fanins| :: SlotFinished(s, new_, t, g, j);
    SlotsFinished(s, new_, t, g);
  }

  lemma SlotsFinished(s: Source, new_: Gates, t: Translation, g: GateId)
    requires g in s.gates && g in t && t[g] in new_ && |new_[t[g]].fanins| == |s.gates[g].fanins|
    requires forall j | 0 <= j < |s.gates[g].fanins| :: SlotFinished(s, new_, t, g, j)
    ensures forall j | 0 <= j < |s.gates[g].fanins| ::
              s.gates[g].fanins[j].gate in t && new_[t[g]].fanins[j] == Translate(t, s.gates[g].fanins[j])
  {
    forall j | 0 <= j < |s.gates[g].fanins|
      ensures s.gates[g].fanins[j].gate in t && new_[t[g]].fanins[j] == Translate(t, s.gates[g].fanins[j])
    {
      assert SlotFinished(s, new_, t, g, j);
    }
  }

  lemma DataCopied(s: Source, new_: Gates, t: Translation, next: nat, done: Progress, g: GateId)
    requires CopyOk(s, new_, t, next, done) && g in t
    ensures g in s.gates && t[g] in new_
    ensures var a, b := s.gates[g], new_[t[g]];
            b.op == a.op && b.width == a.width && b.value == a.value && |b.fanins| == |a.fanins|
  {
    hide SlotsCopied, ConstantsOk, Copies;
    assert GateCopied(s, new_, t, done, g);
  }

  lemma FinishedSlot(s: Source, new_: Gates, t: Translation, next: nat, done: Progress, g: GateId, j: nat)
    requires SourceOk(s) && CopyOk(s, new_, t, next, done) && t.Keys == s.gates.Keys && g in t
    requires forall h | h in t :: done[h] == |s.gates[h].fanouts|
    requires j < |s.gates[g].fanins|
    ensures SlotFinished(s, new_, t, g, j)
  {
    hide GateOk, ConstantsOk, GatesCopied, Injective;
    assert SlotCopied(s, new_, t, done, g, j);
    assert FaninMirrored(s.gates, g, j);
    var f := s.gates[g].fanins[j].gate;
    assert s.gates[f].fanouts[..done[f]] == s.gates[f].fanouts;
  }

  ghost predicate SlotFinished(s: Source, new_: Gates, t: Translation, g: GateId, j: nat) {
    && g in s.gates && g in t && t[g] in new_ && j < |s.gates[g].fanins| && j < |new_[t[g]].fanins|
    && s.gates[g].fanins[j].gate in t && new_[t[g]].fanins[j] == Translate(t, s.gates[g].fanins[j])
  }

  lemma CopyIsFinished(s: Source, new_: Gates, t: Translation, next: nat, done: Progress, rank: GateId -> nat)
    requires SourceOk(s) && Ranked(s.gates, rank) && CopyOk(s, new_, t, next, done) && s.roots <= t.Keys
    requires forall g | g in t :: done[g] == |s.gates[g].fanouts|
    ensures IsCopy(s, new_, t)
  {
    hide IsGateCopy, GatesCopied, SlotsCopied, Ranked, Mirrored, GateOk;
    forall g | g in s.gates
      ensures g in t
    {
      AllTranslated(s, rank, t, done, g);
    }
    forall g | g in t
      ensures IsGateCopy(s, new_, t, g)
    {
      FinishedGate(s, new_, t, next, done, g);
    }
    forall n | n in new_
      ensures exists g :: g in t && t[g] == n
    {
      if n == NEW_ONE {
        assert t[s.one] == n;
      } else if n == NEW_ZERO {
        assert t[s.zero] == n;
      }
    }
  }

  // ----- the copy computes the same -----

  ghost function Operands<V>(gates: Gates, v: GateId -> V, g: GateId): (xs: seq<(V, nat)>)
    requires g in gates
  {
    seq(|gates[g].fanins|, j requires 0 <= j < |gates[g].fanins| => (v(gates[g].fanins[j].gate), gates[g].fanins[j].pin))
  }

  /** v gives every gate the value that the meaning of the operations gives it; INPUTs are free. */
  ghost predicate Computes<V>(gates: Gates, meaning: (Op, nat, nat, seq<(V, nat)>) -> V, v: GateId -> V) {
    forall g | g in gates && gates[g].op != INPUT :: ComputesAt(gates, meaning, v, g)
  }

  ghost predicate ComputesAt<V>(gates: Gates, meaning: (Op, nat, nat, seq<(V, nat)>) -> V, v: GateId -> V, g: GateId)
    requires g in gates
  {
    v(g) == meaning(gates[g].op, gates[g].width, gates[g].value, Operands(gates, v, g))
  }

  ghost function ThroughCopy<V>(t: Translation, v: GateId -> V): (w: GateId -> V) {
    (g: GateId) => if g in t then v(t[g]) else v(g)
  }

  lemma GateComputesTheSame<V>(s: Source, new_: Gates, t: Translation, meaning: (Op, nat, nat, seq<(V, nat)>) -> V,
                               v: GateId -> V, g: GateId)
    requires t.Keys == s.gates.Keys && g in t && IsGateCopy(s, new_, t, g)
    ensures ComputesAt(new_, meaning, v, t[g]) <==> ComputesAt(s.gates, meaning, ThroughCopy(t, v), g)
  {
    assert Operands(new_, v, t[g]) == Operands(s.gates, ThroughCopy(t, v), g);
  }

  /** Whatever the operations mean: the copy's gates have the values of the gates they were copied from. */
  lemma CopyComputesTheSame<V>(s: Source, new_: Gates, t: Translation, meaning: (Op, nat, nat, seq<(V, nat)>) -> V, v: GateId -> V)
    requires IsCopy(s, new_, t)
    ensures Computes(new_, meaning, v) <==> Computes(s.gates, meaning, ThroughCopy(t, v))
  {
    hide ComputesAt;
    forall g | g in t
      ensures t[g] in new_ && new_[t[g]].op == s.gates[g].op
      ensures ComputesAt(new_, meaning, v, t[g]) <==> ComputesAt(s.gates, meaning, ThroughCopy(t, v), g)
    {
      GateComputesTheSame(s, new_, t, meaning, v, g);
    }
    if Computes(s.gates, meaning, ThroughCopy(t, v)) {
      forall n | n in new_ && new_[n].op != INPUT
        ensures ComputesAt(new_, meaning, v, n)
      {
        var g :| g in t && t[g] == n;
      }
    }
  }

  // ----- the work list -----

  /** A pair on the work list: the copy and the gate whose fanouts are still to be copied. */
  datatype Work = Work(copy: GateId, source: GateId)

  /** Every gate found is on the list, being worked on, or done. */
  ghost predicate WorkOk(s: Source, t: Translation, done: Progress, work: seq<Work>, popped: set<GateId>, current: set<GateId>)
    requires ProgressOk(s, t, done)
  {
    && (forall i | 0 <= i < |work| :: EntryOk(t, done, work[i]) && work[i].source !in popped)
    && (forall i, j | 0 <= i < j < |work| :: work[i].source != work[j].source)
    && popped <= t.Keys && current <= popped
    && forall g | g in t && g !in current :: OnList(work, g) || done[g] == |s.gates[g].fanouts|
  }

  ghost predicate EntryOk(t: Translation, done: Progress, w: Work) {
    w.source in t && w.copy == t[w.source] && w.source in done && done[w.source] == 0
  }

  ghost predicate OnList(work: seq<Work>, g: GateId) { exists i :: 0 <= i < |work| && work[i].source == g }

  lemma PushKeepsWork(s: Source, t: Translation, done: Progress, work: seq<Work>, popped: set<GateId>, current: set<GateId>,
                      g: GateId, n: GateId)
    requires ProgressOk(s, t, done) && WorkOk(s, t, done, work, popped, current)
    requires g !in t && ProgressOk(s, t[g := n], done[g := 0])
    ensures WorkOk(s, t[g := n], done[g := 0], work + [Work(n, g)], popped, current)
    ensures s.gates[g].fanouts == [] ==> WorkOk(s, t[g := n], done[g := 0], work, popped, current)
  {
    assert done.Keys == t.Keys <= s.gates.Keys;
    hide ProgressOk;
    var work' := work + [Work(n, g)];
    assert work'[|work|].source == g;
    forall h | h in t[g := n] && h !in current
      ensures OnList(work', h) || done[g := 0][h] == |s.gates[h].fanouts|
    {
      if OnList(work, h) {
        var i :| 0 <= i < |work| && work[i].source == h;
        assert work'[i].source == h;
      }
    }
    forall i | 0 <= i < |work|
      ensures work'[i] == work[i] && work[i].source != g
    {
      assert EntryOk(t, done, work[i]);
    }
  }

  lemma PopKeepsWork(s: Source, t: Translation, done: Progress, work: seq<Work>, popped: set<GateId>)
    requires ProgressOk(s, t, done) && WorkOk(s, t, done, work, popped, {}) && work != []
    ensures var g, rest := work[|work| - 1].source, work[..|work| - 1];
            && EntryOk(t, done, work[|work| - 1]) && g !in popped
            && WorkOk(s, t, done, rest, popped + {g}, {g})
  {
    assert done.Keys == t.Keys <= s.gates.Keys;
    hide ProgressOk, EntryOk;
    var g, rest := work[|work| - 1].source, work[..|work| - 1];
    EntryIn(t, done, work[|work| - 1]);
    forall h | h in t && h !in {g}
      ensures OnList(rest, h) || done[h] == |s.gates[h].fanouts|
    {
      if OnList(work, h) {
        var i :| 0 <= i < |work| && work[i].source == h;
        assert rest[i].source == h;
      }
    }
  }

  lemma EntryIn(t: Translation, done: Progress, w: Work)
    requires EntryOk(t, done, w)
    ensures w.source in t && w.copy == t[w.source]
  {
  }

  /** Working on one gate does not touch the entries of the others. */
  lemma StepKeepsWork(s: Source, t: Translation, done: Progress, work: seq<Work>, popped: set<GateId>, g: GateId)
    requires ProgressOk(s, t, done) && WorkOk(s, t, done, work, popped, {g}) && g in t
    requires ProgressOk(s, t, done[g := done[g] + 1])
    ensures WorkOk(s, t, done[g := done[g] + 1], work, popped, {g})
  {
    hide ProgressOk;
  }

  lemma EndKeepsWork(s: Source, t: Translation, done: Progress, work: seq<Work>, popped: set<GateId>, g: GateId)
    requires ProgressOk(s, t, done) && WorkOk(s, t, done, work, popped, {g}) && g in t
    requires done[g] == |s.gates[g].fanouts|
    ensures WorkOk(s, t, done, work, popped, {})
  {
    hide ProgressOk;
  }

  lemma NoWorkLeft(s: Source, t: Translation, done: Progress, popped: set<GateId>)
    requires ProgressOk(s, t, done) && WorkOk(s, t, done, [], popped, {})
    ensures forall g | g in t :: done[g] == |s.gates[g].fanouts|
  {
    assert done.Keys == t.Keys <= s.gates.Keys;
    hide ProgressOk;
    forall g | g in t
      ensures done[g] == |s.gates[g].fanouts|
    {
      assert !OnList([], g);
    }
  }

  lemma CopyIsProgress(s: Source, new_: Gates, t: Translation, next: nat, done: Progress)
    requires CopyOk(s, new_, t, next, done)
    ensures ProgressOk(s, t, done) && t.Keys <= s.gates.Keys
  {
  }

  class CopyConstruction {
    const source: Gates
    const one: GateId
    const zero: GateId
    const roots: set<GateId>
    var gates: Gates
    var nextId: nat
    var translation: Translation
    var workList: seq<Work>
    ghost var done: Progress
    ghost var popped: set<GateId>

    ghost function From(): (s: Source)
      reads this
    {
      Source(source, one, zero, roots)
    }

    ghost predicate Valid(current: set<GateId>)
      reads this
    {
      && SourceOk(From()) && CopyOk(From(), gates, translation, nextId, done)
      && WorkOk(From(), translation, done, workList, popped, current)
    }

    constructor (source: Gates, one: GateId, zero: GateId, roots: set<GateId>)
      requires SourceOk(Source(source, one, zero, roots))
      ensures Valid({}) && translation == map[] && popped == {}
      ensures this.source == source && this.one == one && this.zero == zero && this.roots == roots
    {
      hide SourceOk;
      this.source := source;
      this.one := one;
      this.zero := zero;
      this.roots := roots;
      gates := map[NEW_ONE := Gate(ONE, 1, 0, [], [Fanout(0, Wire(NEW_ZERO, 0))]),
                   NEW_ZERO := Gate(NOT, 1, 0, [Wire(NEW_ONE, 0)], [])];
      nextId := 3;
      translation := map[];
      workList := [];
      done := map[];
      popped := {};
    }

    /** copy_gate_only, and the insertion into gate_translation */
    method CopyGateOnly(g: GateId, ghost current: set<GateId>)
      requires Valid(current) && g in source && g !in translation && source[g].op != ONE && g != zero
      modifies this`gates, this`nextId, this`translation, this`done, this`workList
      ensures Valid(current) && translation == old(translation)[g := old(nextId)] && done == old(done)[g := 0]
    {
      hide SourceOk, CopyOk, WorkOk, ProgressOk;
      var from := source[g];
      var value := if from.op == INPUT || from.op == OUTPUT then 0 else from.value;
      var width := if from.op == SPLIT then 1 else from.width;
      var copy := Gate(from.op, width, value, seq(FaninCount(from.op, from.width), _ => EMPTY_SLOT), []);
      CopyIsProgress(From(), gates, translation, nextId, done);
      NewGateKeeps(From(), gates, translation, nextId, done, workList, popped, current, g, copy);
      gates := gates[nextId := copy];
      translation := translation[g := nextId];
      if from.op != OUTPUT {
        workList := workList + [Work(nextId, g)];
      }
      nextId := nextId + 1;
      done := done[g := 0];
    }

    /** A constant gate has its copy already. */
    method UseConstant(g: GateId, ghost current: set<GateId>)
      requires Valid(current) && g in source && g !in translation
      requires if source[g].op == ONE then zero !in translation else g == zero && one in translation
      modifies this`translation, this`done, this`workList
      ensures Valid(current) && done == old(done)[g := 0]
      ensures translation == old(translation)[g := if source[g].op == ONE then NEW_ONE else NEW_ZERO]
    {
      hide SourceOk, CopyOk, WorkOk, ProgressOk;
      var n := if source[g].op == ONE then NEW_ONE else NEW_ZERO;
      CopyIsProgress(From(), gates, translation, nextId, done);
      ConstantKeeps(From(), gates, translation, nextId, done, workList, popped, current, g, n);
      translation := translation[g := n];
      workList := workList + [Work(n, g)];
      done := done[g := 0];
    }

    /** The loop over the root gates. */
    method CopyRoots()
      requires Valid({}) && translation == map[] && popped == {}
      modifies this`gates, this`nextId, this`translation, this`done, this`workList
      ensures Valid({}) && roots <= translation.Keys && zero !in translation
    {
      hide SourceOk, CopyOk, WorkOk, ProgressOk;
      var todo := roots;
      while todo != {}
        invariant Valid({}) && todo <= roots && zero !in translation
        invariant forall g | g in roots :: g in todo || g in translation
        invariant forall g | g in todo :: g !in translation
        decreases todo
      {
        var g :| g in todo;
        RootOf(From(), g);
        if source[g].op == ONE {
          UseConstant(g, {});
        } else {
          CopyGateOnly(g, {});
        }
        todo := todo - {g};
      }
    }

    /** One round of the loop over the fanouts of a gate. */
    method CopyFanout(copy: GateId, g: GateId, i: nat)
      requires Valid({g}) && g in translation && copy == translation[g] && g in source && i < |source[g].fanouts|
      requires g in done && done[g] == i && one in translation
      modifies this`gates, this`nextId, this`translation, this`done, this`workList
      ensures Valid({g}) && g in translation && copy == translation[g] && g in done && done[g] == i + 1
      ensures one in translation && old(translation.Keys) <= translation.Keys
    {
      hide SourceOk, CopyOk, WorkOk, ProgressOk;
      var fanout := source[g].fanouts[i];
      var target := fanout.target.gate;
      TargetOf(From(), g, i);
      if target !in translation {
        if source[target].op != OUTPUT && target == zero {
          UseConstant(target, {g});
        } else {
          CopyGateOnly(target, {g});
        }
      }
      CopyIsProgress(From(), gates, translation, nextId, done);
      WireIsCopied(From(), gates, translation, nextId, done, workList, popped, g);
      if translation[target] != NEW_ZERO {
        assert gates[translation[target]].fanins[fanout.target.pin] == EMPTY_SLOT;
        gates := ConnectPins(gates, copy, fanout.pin, Wire(translation[target], fanout.target.pin));
      }
      done := done[g := i + 1];
    }

    /** The whole traversal: from the roots of an acyclic circuit it copies the circuit. */
    method Copy(ghost rank: GateId -> nat)
      requires Valid({}) && translation == map[] && popped == {} && Ranked(source, rank)
      modifies this
      ensures IsCopy(From(), gates, translation)
    {
      hide SourceOk, CopyOk, WorkOk, ProgressOk, Ranked;
      CopyRoots();
      OneIsRoot(From());
      while workList != []
        invariant Valid({}) && roots <= translation.Keys && one in translation
        decreases source.Keys - popped
      {
        CopyIsProgress(From(), gates, translation, nextId, done);
        PopKeepsWork(From(), translation, done, workList, popped);
        var work := workList[|workList| - 1];
        workList := workList[..|workList| - 1];
        ghost var before := popped;
        popped := popped + {work.source};
        assert work.source in source.Keys - before && work.source !in source.Keys - popped;
        var fanouts := source[work.source].fanouts;
        for i := 0 to |fanouts|
          invariant Valid({work.source}) && roots <= translation.Keys && one in translation
          invariant work.source in translation && work.copy == translation[work.source]
          invariant work.source in done && done[work.source] == i
          invariant popped == before + {work.source}
        {
          CopyFanout(work.copy, work.source, i);
        }
        CopyIsProgress(From(), gates, translation, nextId, done);
        EndKeepsWork(From(), translation, done, workList, popped, work.source);
      }
      CopyIsProgress(From(), gates, translation, nextId, done);
      NoWorkLeft(From(), translation, done, popped);
      CopyIsFinished(From(), gates, translation, nextId, done, rank);
    }
  }

  lemma RootOf(s: Source, g: GateId)
    requires SourceOk(s) && g in s.roots
    ensures g in s.gates && g != s.zero && (s.gates[g].op == ONE <==> g == s.one)
  {
  }

  lemma OneIsRoot(s: Source)
    requires SourceOk(s)
    ensures s.one in s.roots
  {
    assert GateOk(s.gates[s.one]);
  }

  lemma TargetOf(s: Source, g: GateId, i: nat)
    requires SourceOk(s) && g in s.gates && i < |s.gates[g].fanouts|
    ensures var t := s.gates[g].fanouts[i].target.gate;
            t in s.gates && s.gates[t].op != ONE && s.gates[s.zero].op != OUTPUT
  {
    assert FanoutMirrored(s.gates, g, i);
    var t := s.gates[g].fanouts[i].target.gate;
    assert GateOk(s.gates[t]);
  }

  lemma WireIsCopied(s: Source, new_: Gates, t: Translation, next: nat, done: Progress,
                     work: seq<Work>, popped: set<GateId>, g: GateId)
    requires SourceOk(s) && CopyOk(s, new_, t, next, done) && ProgressOk(s, t, done) && WorkOk(s, t, done, work, popped, {g})
    requires g in t && done[g] < |s.gates[g].fanouts| && s.gates[g].fanouts[done[g]].target.gate in t
    ensures var e, done' := s.gates[g].fanouts[done[g]], done[g := done[g] + 1];
            && t[g] in new_ && t[e.target.gate] in new_ && e.target.pin < |new_[t[e.target.gate]].fanins|
            && (t[e.target.gate] == NEW_ZERO <==> e.target.gate == s.zero)
            && (t[e.target.gate] != NEW_ZERO ==> new_[t[e.target.gate]].fanins[e.target.pin] == EMPTY_SLOT)
            && CopyOk(s, WithWire(s, new_, t, g, e), t, next, done') && ProgressOk(s, t, done')
            && WorkOk(s, t, done', work, popped, {g})
  {
    NextWire(s, new_, t, next, done, g);
    SlotIsEmpty(s, new_, t, next, done, g);
    ZeroName(s, new_, t, next, done);
    hide SourceOk, WorkOk, CopyOk;
    CopyWireKeeps(s, new_, t, next, done, g, WithWire(s, new_, t, g, s.gates[g].fanouts[done[g]]));
    CopyIsProgress(s, WithWire(s, new_, t, g, s.gates[g].fanouts[done[g]]), t, next, done[g := done[g] + 1]);
    hide ProgressOk;
    StepKeepsWork(s, t, done, work, popped, g);
  }

  lemma ZeroName(s: Source, new_: Gates, t: Translation, next: nat, done: Progress)
    requires CopyOk(s, new_, t, next, done)
    ensures forall h | h in t :: t[h] == NEW_ZERO <==> h == s.zero
  {
  }

  lemma NewGateKeeps(s: Source, new_: Gates, t: Translation, next: nat, done: Progress,
                     work: seq<Work>, popped: set<GateId>, current: set<GateId>, g: GateId, copy: Gate)
    requires SourceOk(s) && CopyOk(s, new_, t, next, done) && g in s.gates && g !in t && s.gates[g].op != ONE && g != s.zero
    requires ProgressOk(s, t, done) && WorkOk(s, t, done, work, popped, current)
    requires copy.op == s.gates[g].op && copy.fanouts == []
    requires copy.width == if copy.op == SPLIT then 1 else s.gates[g].width
    requires copy.value == if copy.op == INPUT || copy.op == OUTPUT then 0 else s.gates[g].value
    requires |copy.fanins| == FaninCount(s.gates[g].op, s.gates[g].width)
    requires forall j | 0 <= j < |copy.fanins| :: copy.fanins[j] == EMPTY_SLOT
    ensures var new', t', done' := new_[next := copy], t[g := next], done[g := 0];
            && CopyOk(s, new', t', next + 1, done') && ProgressOk(s, t', done')
            && WorkOk(s, t', done', if copy.op == OUTPUT then work else work + [Work(next, g)], popped, current)
  {
    hide SourceOk, CopyOk, WorkOk, CanTranslate, TranslationOk;
    var new', t', done' := new_[next := copy], t[g := next], done[g := 0];
    NewGateCanTranslate(s, new_, t, next, done, g, copy);
    TranslateKeepsCopy(s, new_, new', t, next, next + 1, done, g, next);
    CopyIsProgress(s, new', t', next + 1, done');
    hide ProgressOk;
    PushKeepsWork(s, t, done, work, popped, current, g, next);
    NoFanoutsOfOutput(s, g);
  }

  lemma ConstantKeeps(s: Source, new_: Gates, t: Translation, next: nat, done: Progress,
                      work: seq<Work>, popped: set<GateId>, current: set<GateId>, g: GateId, n: GateId)
    requires SourceOk(s) && CopyOk(s, new_, t, next, done) && g in s.gates && g !in t
    requires ProgressOk(s, t, done) && WorkOk(s, t, done, work, popped, current)
    requires if s.gates[g].op == ONE then n == NEW_ONE && s.zero !in t else n == NEW_ZERO && g == s.zero && s.one in t
    ensures var t', done' := t[g := n], done[g := 0];
            && CopyOk(s, new_, t', next, done') && ProgressOk(s, t', done')
            && WorkOk(s, t', done', work + [Work(n, g)], popped, current)
  {
    hide SourceOk, CopyOk, WorkOk, CanTranslate, TranslationOk;
    ConstantCanTranslate(s, new_, t, next, done, g, n);
    TranslateKeepsCopy(s, new_, new_, t, next, next, done, g, n);
    CopyIsProgress(s, new_, t[g := n], next, done[g := 0]);
    hide ProgressOk;
    PushKeepsWork(s, t, done, work, popped, current, g, n);
  }

  lemma NoFanoutsOfOutput(s: Source, g: GateId)
    requires SourceOk(s) && g in s.gates
    ensures s.gates[g].op == OUTPUT ==> s.gates[g].fanouts == []
  {
    assert GateOk(s.gates[g]);
  }

  lemma NewGateCanTranslate(s: Source, new_: Gates, t: Translation, next: nat, done: Progress, g: GateId, copy: Gate)
    requires SourceOk(s) && CopyOk(s, new_, t, next, done) && g in s.gates && g !in t && s.gates[g].op != ONE && g != s.zero
    requires copy.op == s.gates[g].op && copy.fanouts == []
    requires copy.width == if copy.op == SPLIT then 1 else s.gates[g].width
    requires copy.value == if copy.op == INPUT || copy.op == OUTPUT then 0 else s.gates[g].value
    requires |copy.fanins| == FaninCount(s.gates[g].op, s.gates[g].width)
    requires forall j | 0 <= j < |copy.fanins| :: copy.fanins[j] == EMPTY_SLOT
    ensures CanTranslate(s, new_, new_[next := copy], t, next, done, g, next)
    ensures TranslationOk(s, new_[next := copy], t[g := next], next + 1)
  {
    hide Mirrored, GatesCopied, SlotsCopied, ConstantsOk, ProgressOk;
    assert GateOk(s.gates[g]);
    assert next !in new_;
    NamesStay(s, new_, new_[next := copy], t, next, next + 1, g, next);
  }

  /** Every new gate has a source gate or is a constant. */
  lemma NamesStay(s: Source, new_: Gates, new': Gates, t: Translation, next: nat, next': nat, g: GateId, n: GateId)
    requires TranslationOk(s, new_, t, next) && g in s.gates && g !in t && next <= next'
    requires n in new' && NULL < n < next' && new'.Keys == new_.Keys + {n}
    requires (n == NEW_ONE <==> g == s.one) && (n == NEW_ZERO <==> g == s.zero)
    requires forall h | h in t :: t[h] != n
    ensures TranslationOk(s, new', t[g := n], next')
  {
    var t' := t[g := n];
    forall m | m in new' && m != NEW_ONE && m != NEW_ZERO
      ensures exists h :: h in t' && t'[h] == m
    {
      if m == n {
        assert t'[g] == m;
      } else {
        var h :| h in t && t[h] == m;
        assert t'[h] == m;
      }
    }
  }

  lemma ConstantCanTranslate(s: Source, new_: Gates, t: Translation, next: nat, done: Progress, g: GateId, n: GateId)
    requires SourceOk(s) && CopyOk(s, new_, t, next, done) && g in s.gates && g !in t
    requires if s.gates[g].op == ONE then n == NEW_ONE && s.zero !in t else n == NEW_ZERO && g == s.zero && s.one in t
    ensures CanTranslate(s, new_, new_, t, next, done, g, n)
    ensures TranslationOk(s, new_, t[g := n], next)
  {
    hide Mirrored, GatesCopied, SlotsCopied, ProgressOk;
    assert GateOk(s.gates[g]);
    NamesStay(s, new_, new_, t, next, next, g, n);
  }
}
