/** What printed types look like, and what the bytes and elements of values stand for. */
module SpecLaws {
  import opened Powers
  import opened Shifts
  import Words
  import opened SpecLexer
  import opened SpecTypes
  import opened SpecValues

  // ----- types -----

  /** The names of the leaf types, and the dimensions behind them, the outermost first. */
  lemma PrintedTypes()
    ensures PrintOnto(BoolType, "") == "bool"
    ensures PrintOnto(IntegerType(true, 8), "") == "int8"
    ensures PrintOnto(IntegerType(false, 8), "") == "uint8"
    ensures PrintOnto(ArrayType(ArrayType(IntegerType(false, 8), 2), 3), "") == "uint8[3][2]"
    ensures PrintOnto(StructType([Member("a", BoolType)]), "") == "{a: bool; }"
  {
    assert ToString(8) == "8" && ToString(2) == "2" && ToString(3) == "3";
    var inner := ArrayType(IntegerType(false, 8), 2);
    assert PrintOnto(inner, "" + "[" + "3" + "]") == PrintOnto(IntegerType(false, 8), "" + "[" + "3" + "]" + "[" + "2" + "]");
    var ms := [Member("a", BoolType)];
    assert ms[1..] == [];
  }

  /** The conversion of a 64-bit value to int keeps the value modulo 2^32. */
  lemma ToIntIsModular(v: nat)
    ensures -0x8000_0000 <= ToInt(v) < 0x8000_0000 && (v - ToInt(v)) % 0x1_0000_0000 == 0
  {
  }

  // ----- bytes -----

  /** The first byte is the lowest one. */
  lemma {:induction false} LowestByteFirst(bytes: Bytes)
    requires AreBytes(bytes) && bytes != []
    ensures LittleEndian(bytes) == bytes[0] + 256 * LittleEndian(bytes[1..])
    decreases |bytes|
  {
    hide Shl, Pow2;
    var n := |bytes| - 1;
    assert LittleEndian([]) == 0;
    if n == 0 {
      assert bytes[..0] == [] && bytes[1..] == [];
      ShlOfNone(bytes[0]);
    } else {
      var front, rest := bytes[..n], bytes[1..];
      LowestByteFirst(front);
      assert front[1..] == rest[..n - 1] && rest[n - 1] == bytes[n];
      ShlShl(bytes[n], 8 * (n - 1), 8);
      ShlOfByte(Shl(bytes[n], 8 * (n - 1)));
      assert 8 * (n - 1) + 8 == 8 * n;
    }
  }

  lemma ShlOfNone(m: nat)
    ensures Shl(m, 0) == m
  {
  }

  lemma ShlOfByte(m: nat)
    ensures Shl(m, 8) == 256 * m
  {
    ShlIsProduct(m, 8);
    assert Pow2(8) == 256;
  }

  // ----- elements -----

  /** An element stands for its bits, as a two's complement number if the type is signed. */
  lemma ElementIsTwosComplement(width: nat, val: nat)
    requires IsWidth(width) && val < Pow2(width)
    ensures Signed(Element(true, width, val)) == if val < Pow2(width - 1) then val else val - Pow2(width)
    ensures Element(false, width, val).value == val
  {
    hide Pow2;
    Words.WordFromWidth(width);
    Pow2Step(width - 1);
  }
}
