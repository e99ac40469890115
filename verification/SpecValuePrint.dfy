/** The printer of values, and the way from bytes over text to bytes as the code takes it. */
module SpecValuePrint {
  import opened Basics
  import opened SpecLexer
  import opened SpecTypes
  import opened SpecValues
  import opened SpecValueText
  import opened Powers

  /** From element idx on, data holds the given elements. */
  ghost predicate Holds(data: Bytes, width: nat, idx: nat, xs: seq<nat>) {
    && width * (idx + |xs|) <= 8 * |data|
    && forall i: nat | i < |xs| :: ElementIs(data, width, idx + i, xs[i])
  }

  ghost predicate ElementIs(data: Bytes, width: nat, k: nat, x: nat) { x == Bits(data, width * k, width) }

  /** print_dim; the text is appended to what was printed before. */
  method PrintDim(t: Type, data: Bytes, idx: nat, printed: string, ghost xs: seq<nat>)
    returns (text: string, next: nat)
    requires IsIntegerArray(t) && |xs| == Count(t) && AreBytes(data) && Holds(data, ElementOf(t).width, idx, xs)
    ensures text == printed + PrintValue(t, xs) && next == idx + Count(t)
    decreases t, 0
  {
    hide AreBytes, Pow2, NumberToString, PrintValue, ElementIs;
    if t.IntegerType? {
      var n := PrintableElement(t, data, idx, xs);
      text, next := printed + NumberToString(n), idx + 1;
    } else {
      PrintedArray(t, xs);
      hide PrintRest, Holds;
      ghost var c := Count(t.sub);
      SplitElements(data, ElementOf(t).width, idx, xs, c);
      text, next := PrintDim(t.sub, data, idx, printed + "[", xs[..c]);
      text, next := PrintFurther(t.sub, t.length, data, next, text, xs[c..]);
      text := text + "]";
    }
  }

  /** The loop over the elements of an array behind the first one. */
  method PrintFurther(sub: Type, length: nat, data: Bytes, idx: nat, printed: string, ghost xs: seq<nat>)
    returns (text: string, next: nat)
    requires IsIntegerArray(sub) && 0 < length && |xs| == Times(length - 1, Count(sub))
    requires AreBytes(data) && Holds(data, ElementOf(sub).width, idx, xs)
    ensures text == printed + PrintRest(sub, length - 1, xs) && next == idx + |xs|
    decreases sub, 1
  {
    hide AreBytes, Pow2, NumberToString, PrintValue, PrintRest, Holds, Times, Count, ElementOf;
    text, next := printed, idx;
    ghost var c := Count(sub);
    ghost var rest := xs;
    for i := 1 to length
      invariant |rest| == Times(length - i, c)
      invariant next + |rest| == idx + |xs| && Holds(data, ElementOf(sub).width, next, rest)
      invariant text + PrintRest(sub, length - i, rest) == printed + PrintRest(sub, length - 1, xs)
    {
      TimesStep(length - i, c);
      SplitElements(data, ElementOf(sub).width, next, rest, c);
      ghost var before, left := text, rest[c..];
      text, next := PrintDim(sub, data, next, text + ", ", rest[..c]);
      PrintMore(sub, length - i, rest, before, text);
      rest := left;
    }
    TimesStep(0, c);
    assert rest == [];
    NothingFurther(sub);
  }

  lemma TimesStep(n: nat, c: nat)
    ensures Times(n, c) == if n == 0 then 0 else c + Times(n - 1, c)
  {
  }

  lemma NothingFurther(sub: Type)
    requires IsIntegerArray(sub)
    ensures Times(0, Count(sub)) == 0 && PrintRest(sub, 0, []) == ""
  {
  }

  lemma PrintMore(sub: Type, n: nat, rest: seq<nat>, before: string, text: string)
    requires IsIntegerArray(sub) && 0 < n && |rest| == Times(n, Count(sub)) && Count(sub) <= |rest|
    requires text == before + ", " + PrintValue(sub, rest[..Count(sub)])
    ensures |rest[Count(sub)..]| == Times(n - 1, Count(sub))
    ensures text + PrintRest(sub, n - 1, rest[Count(sub)..]) == before + PrintRest(sub, n, rest)
  {
    var c := Count(sub);
    PrintedRest(sub, n, rest);
    hide PrintRest, PrintValue;
    Associates(before, PrintValue(sub, rest[..c]), PrintRest(sub, n - 1, rest[c..]));
  }

  lemma Associates(before: string, a: string, r: string)
    ensures before + ", " + a + r == before + (", " + a + r)
  {
  }

  method PrintableElement(t: Type, data: Bytes, idx: nat, ghost xs: seq<nat>) returns (n: Number)
    requires IsIntegerArray(t) && t.IntegerType? && |xs| == 1 && AreBytes(data) && Holds(data, t.width, idx, xs)
    ensures PrintValue(t, xs) == NumberToString(n)
  {
    hide AreBytes, Pow2, NumberToString, Bits;
    assert ElementIs(data, t.width, idx + 0, xs[0]);
    assert t.width * idx + t.width == t.width * (idx + 1);
    n := GetElement(t.isSigned, t.width, data, idx);
  }

  lemma SplitElements(data: Bytes, width: nat, idx: nat, xs: seq<nat>, c: nat)
    requires c <= |xs| && Holds(data, width, idx, xs)
    ensures Holds(data, width, idx, xs[..c]) && Holds(data, width, idx + c, xs[c..])
  {
    hide ElementIs;
    MulMono(idx + c, idx + |xs|, width);
    forall i: nat | i < |xs| - c
      ensures ElementIs(data, width, idx + c + i, xs[c..][i])
    {
      assert ElementIs(data, width, idx + (c + i), xs[c + i]);
    }
  }

  // ----- whole values -----

  /** Integers and arrays of them, with arrays of length 0. */
  predicate IsIntegerValue(t: Type) {
    match t
    case IntegerType(_, width) => IsWidth(width)
    case ArrayType(sub, length) => 0 <= length && IsIntegerValue(sub)
    case _ => false
  }

  /** get_bit_width */
  function BitWidth(t: Type): (n: nat)
    requires IsIntegerValue(t)
  {
    if t.ArrayType? then Times(t.length, BitWidth(t.sub)) else t.width
  }

  /** get_num_bytes */
  function NumBytes(t: Type): (n: nat)
    requires IsIntegerValue(t)
  {
    (BitWidth(t) + 7) / 8
  }

  lemma {:induction false} TimesIsProduct(n: nat, c: nat)
    ensures Times(n, c) == n * c
    decreases n
  {
    if n > 0 {
      TimesIsProduct(n - 1, c);
      assert n * c == (n - 1) * c + c;
    }
  }

  /** Without an empty dimension there are bits for at least one element. */
  lemma {:induction false} BitsOfElements(t: Type)
    requires IsIntegerArray(t)
    ensures IsIntegerValue(t) && 0 < Count(t) && BitWidth(t) == Count(t) * ElementOf(t).width
    decreases t
  {
    if t.ArrayType? {
      BitsOfElements(t.sub);
      var c, w := Count(t.sub), ElementOf(t).width;
      TimesIsProduct(t.length, c);
      TimesIsProduct(t.length, c * w);
      MulAssoc(t.length, c, w);
      MulMono(1, t.length, c);
    }
  }

  /** With an empty dimension there are no bits. */
  lemma {:induction false} NoBits(t: Type)
    requires IsIntegerValue(t)
    ensures BitWidth(t) == 0 <==> !IsIntegerArray(t)
    decreases t
  {
    if t.ArrayType? {
      NoBits(t.sub);
      TimesIsProduct(t.length, BitWidth(t.sub));
      if 0 < t.length && IsIntegerArray(t.sub) {
        MulMono(1, t.length, BitWidth(t.sub));
      }
    }
  }

  /** The elements of a raw value. */
  ghost function ElementsOf(t: Type, data: Bytes): (xs: seq<nat>)
    requires IsIntegerArray(t)
    ensures |xs| == Count(t)
  {
    seq(Count(t), i requires 0 <= i < Count(t) => Bits(data, ElementOf(t).width * i, ElementOf(t).width))
  }

  lemma ElementsFit(t: Type, data: Bytes)
    requires IsIntegerArray(t) && IsIntegerValue(t) && |data| == NumBytes(t)
    ensures AllFit(t, ElementsOf(t, data)) && Holds(data, ElementOf(t).width, 0, ElementsOf(t, data))
  {
    hide Pow2, Bits;
    BitsOfElements(t);
    hide BitWidth, Times, Count, IsIntegerValue;
    var xs, w := ElementsOf(t, data), ElementOf(t).width;
    forall i: nat | i < |xs|
      ensures xs[i] < Pow2(w) && ElementIs(data, w, i, xs[i])
    {
      BitsBelow(data, w * i, w);
    }
    RoundedUp(|xs|, w, |data|);
  }

  lemma RoundedUp(n: nat, w: nat, bytes: nat)
    requires bytes == (n * w + 7) / 8
    ensures w * (0 + n) <= 8 * bytes
  {
  }

  /** Elements of whole bytes are written as they were. */
  lemma {:induction false} WrittenIsData(data: Bytes, size: nat, at: nat, xs: seq<nat>)
    requires AreBytes(data) && size * at + Times(|xs|, size) == |data|
    requires forall i: nat | i < |xs| :: xs[i] == Bits(data, 8 * size * (at + i), 8 * size)
    ensures Written(size, xs) == data[size * at..]
    decreases |xs|
  {
    hide BytesOf, Bits, AreBytes;
    if xs != [] {
      assert size * (at + 1) == size * at + size;
      assert 8 * size * (at + 0) == 8 * (size * at);
      BytesOfBits(data, size * at, size);
      var rest := xs[1..];
      assert forall i: nat | i < |rest| :: rest[i] == xs[1 + i] && at + (1 + i) == at + 1 + i;
      WrittenIsData(data, size, at + 1, rest);
      assert data[size * at..] == data[size * at..size * at + size] + data[size * at + size..];
    }
  }

  lemma {:induction false} WrittenLength(size: nat, xs: seq<nat>)
    ensures |Written(size, xs)| == |xs| * size
    decreases |xs|
  {
    hide BytesOf;
    if xs != [] {
      WrittenLength(size, xs[1..]);
      assert |BytesOf(xs[0], size)| == size;
      assert |xs| * size == (|xs| - 1) * size + size;
    }
  }

  lemma SomeBitsLeft(n: nat, w: nat, bytes: nat)
    requires 0 < n && bytes == (n * w + 7) / 8
    ensures w % 8 == 0 ==> bytes == n * (w / 8)
    ensures w % 8 != 0 ==> n * (w / 8) < bytes
  {
    var size, r := w / 8, w % 8;
    assert n * w == 8 * (n * size) + n * r by {
      assert w == 8 * size + r;
      assert n * (8 * size) == 8 * (n * size) by { MulAssoc(8, n, size); MulAssoc(n, 8, size); }
    }
    MulMono(1, n, r);
  }

  /** What is written is the data exactly if the elements fill whole bytes. */
  lemma WrittenIsDataIff(t: Type, data: Bytes)
    requires IsIntegerArray(t) && AreBytes(data)
    requires IsIntegerValue(t) && |data| == NumBytes(t)
    ensures Written(ElementOf(t).width / 8, ElementsOf(t, data)) == data <==> ElementOf(t).width % 8 == 0
  {
    hide Bits, BytesOf, AreBytes, Written;
    var xs, w := ElementsOf(t, data), ElementOf(t).width;
    var size := w / 8;
    BitsOfElements(t);
    hide BitWidth, Times;
    WrittenLength(size, xs);
    SomeBitsLeft(|xs|, w, |data|);
    if w % 8 == 0 {
      TimesIsProduct(|xs|, size);
      WholeElements(t, data, size);
      WrittenIsData(data, size, 0, xs);
      assert data[0..] == data;
    }
  }

  lemma WholeElements(t: Type, data: Bytes, size: nat)
    requires IsIntegerArray(t) && ElementOf(t).width == 8 * size
    ensures size * 0 == 0
    ensures var xs := ElementsOf(t, data); forall i: nat | i < |xs| :: xs[i] == Bits(data, 8 * size * (0 + i), 8 * size)
  {
    hide Bits;
  }

  /** operator<< for a value */
  method PrintTyped(t: Type, data: Bytes) returns (text: string)
    requires IsIntegerValue(t) && AreBytes(data) && |data| == NumBytes(t)
    ensures if IsIntegerArray(t) then text == PrintValue(t, ElementsOf(t, data)) else text == NOTHING
  {
    hide AreBytes, PrintValue, Holds, AllFit;
    NoBits(t);
    if data == [] {
      text := NOTHING;
    } else {
      ElementsFit(t, data);
      var next;
      text, next := PrintDim(t, data, 0, "", ElementsOf(t, data));
    }
  }

  const NOTHING: string := "<nothing>"

  lemma NothingIsNoToken()
    ensures Lex(NOTHING, 0) == None
  {
    SpacesEndHere(NOTHING, 0);
    forall k | 0 <= k < |TOKENS|
      ensures !StartsWith(NOTHING, 0, TOKENS[k].0)
    {
      if StartsWith(NOTHING, 0, TOKENS[k].0) {
        FirstChar(NOTHING, 0, TOKENS[k].0);
      }
    }
    FindsNone(NOTHING, 0, 0);
  }

  /**
   Printing a value, parsing the text and encoding the result, as the code does it. It goes through
   exactly if there are elements and none is in the upper half of uint64. Then the bytes are those of the
   value exactly if the elements fill whole bytes.
   */
  method PrintParseEncode(t: Type, data: Bytes) returns (ok: bool, bytes: Bytes)
    requires IsIntegerValue(t) && AreBytes(data) && |data| == NumBytes(t)
    ensures ok <==> IsIntegerArray(t) && AllSurvive(t, ElementsOf(t, data))
    ensures ok ==> (bytes == data <==> ElementOf(t).width % 8 == 0)
  {
    hide AreBytes, PrintValue, ToValue, Lex, ParseValue, AllSurvive, Written, ElementsOf, IsIntegerValue, AllFit, Holds;
    var text := PrintTyped(t, data);
    var state := new ParseState(text);
    ghost var s, tree;
    if IsIntegerArray(t) {
      ElementsFit(t, data);
      WrittenIsDataIff(t, data);
      s, tree := ValueRoundTrip(t, ElementsOf(t, data));
    } else {
      NothingIsNoToken();
    }
    ok := state.Next();
    bytes := [];
    if !ok { return; }
    var node;
    ok, node := DoParseValue(state);
    if !ok { return; }
    ok, bytes := Encode(node, t, []);
  }
}
