/** Integer values of the spec language: from bytes to text and back. */
module SpecValues {
  import opened Basics
  import opened Powers
  import opened Shifts
  import Words
  import opened SpecLexer
  import opened SpecTypes

  // ----- numbers and their ranges -----

  /** What a Number stands for. */
  function Signed(n: Number): (i: int) { if n.isNeg then n.value - WORD else n.value }

  predicate IsWordNumber(n: Number) { n.value < WORD }

  /** operator < */
  function Less(a: Number, b: Number): (r: bool) {
    if a.isNeg == b.isNeg then a.value < b.value else a.isNeg
  }

  /** The comparison of flags and 64-bit patterns is the comparison of the numbers. */
  lemma LessIsLess(a: Number, b: Number)
    requires IsWordNumber(a) && IsWordNumber(b)
    ensures Less(a, b) <==> Signed(a) < Signed(b)
  {
  }

  /** The widths get_element works for. */
  predicate IsWidth(width: int) { 0 < width <= 64 }

  function MaxValue(isSigned: bool, width: nat): (n: Number)
    requires 0 < width <= 64
  {
    ShlPositive(width - 1);
    ShlPositive(width);
    if isSigned then Number(false, Shl(1, width - 1) - 1)
    else if width == 64 then Number(false, WORD - 1)
    else Number(false, Shl(1, width) - 1)
  }

  lemma ShlPositive(k: nat)
    ensures Shl(1, k) > 0
  {
    Words.ShlIsPositive(1, k);
  }

  /** For signed types the complement of the maximum, as a negative number. */
  function MinValue(isSigned: bool, width: nat): (n: Number)
    requires 0 < width <= 64
  {
    if isSigned then
      var complement: int := WORD - 1 - MaxValue(true, width).value;
      Number(true, if complement >= 0 then complement else 0)
    else Number(false, 0)
  }

  function IsRepresentable(isSigned: bool, width: nat, n: Number): (r: bool)
    requires 0 < width <= 64
  {
    !Less(n, MinValue(isSigned, width)) && !Less(MaxValue(isSigned, width), n)
  }

  lemma ShlIsPow2(k: nat)
    ensures Shl(1, k) == Pow2(k)
  {
    ShlOfPow2(0, k);
    assert Pow2(0) == 1;
  }

  /** is_representable checks the range of the type. */
  lemma RepresentableIsInRange(isSigned: bool, width: nat, n: Number)
    requires 0 < width <= 64 && IsWordNumber(n)
    ensures IsRepresentable(isSigned, width, n)
            <==> if isSigned then 0 <= Signed(n) + Pow2(width - 1) < Pow2(width) else 0 <= Signed(n) < Pow2(width)
  {
    hide Shl, Pow2;
    ShlIsPow2(width - 1);
    ShlIsPow2(width);
    Words.WordFromWidth(width - 1);
    Words.WordFromWidth(width);
    Words.WordIsPow2();
    Pow2Step(width - 1);
    LessIsLess(n, MinValue(isSigned, width));
    LessIsLess(MaxValue(isSigned, width), n);
  }

  // ----- the elements of a raw value -----

  type Bytes = seq<nat>

  ghost predicate AreBytes(data: Bytes) { forall i | 0 <= i < |data| :: data[i] < 256 }

  /** The number with the given bytes, lowest first. */
  ghost function LittleEndian(bytes: Bytes): (v: nat) {
    if bytes == [] then 0 else LittleEndian(bytes[..|bytes| - 1]) + Shl(bytes[|bytes| - 1], 8 * (|bytes| - 1))
  }

  lemma {:induction false} LittleEndianBelow(bytes: Bytes)
    requires AreBytes(bytes)
    ensures LittleEndian(bytes) < Pow2(8 * |bytes|)
    decreases |bytes|
  {
    if bytes != [] {
      var n := |bytes| - 1;
      LittleEndianBelow(bytes[..n]);
      ShlAdd(bytes[n], 1, 8 * n);
      ShlIsPow2(8 * n);
      assert Pow2(8) == 256;
      ShlOfPow2(8, 8 * n);
      ShlOrder(bytes[n] + 1, 256, 8 * n);
      assert 8 + 8 * n == 8 * |bytes|;
    }
  }

  /** Bits start to start + count of the data, as a number. */
  ghost function Bits(data: Bytes, start: nat, count: nat): (v: nat) { Low(Shr(LittleEndian(data), start), count) }

  lemma BitsBelow(data: Bytes, start: nat, count: nat)
    ensures Bits(data, start, count) < Pow2(count)
  {
    Words.LowBelow(Shr(LittleEndian(data), start), count);
  }

  /** The low bits of a number above the first s ones. */
  lemma {:induction false} ShrOfLow(m: nat, s: nat, n: nat)
    ensures Shr(Low(m, s + n), s) == Low(Shr(m, s), n)
    decreases s
  {
    if s > 0 {
      ShrOfLow(m / 2, s - 1, n);
      assert Low(m, s + n) / 2 == Low(m / 2, s - 1 + n);
    }
  }

  /** Bits that lie in one byte. */
  lemma BitsOfByte(data: Bytes, j: nat, s: nat, n: nat)
    requires AreBytes(data) && j < |data| && s + n <= 8
    ensures Bits(data, 8 * j + s, n) == Low(Shr(data[j], s), n)
  {
    hide Shr, Low, LittleEndian;
    var y := Shr(LittleEndian(data), 8 * j);
    BytesOfLittleEndian(data, j);
    ShrShr(LittleEndian(data), 8 * j, s);
    ShrOfLow(y, s, 8 - s);
    Words.LowOfLow(Shr(y, s), 8 - s, n);
  }

  /** More bits, from the byte where the previous ones ended. */
  lemma BitsGoOn(data: Bytes, start: nat, read: nat, j: nat, n: nat)
    requires AreBytes(data) && j < |data| && start + read == 8 * j && n <= 8
    ensures Bits(data, start, read) < Pow2(read)
    ensures Bits(data, start, read + n) == Bits(data, start, read) + Shl(Low(data[j], n), read)
  {
    hide Shr, Low, LittleEndian, Shl, Pow2;
    BitsBelow(data, start, read);
    ShrShr(LittleEndian(data), start, read);
    ShrShr(Shr(LittleEndian(data), start), read, n);
    BytesOfLittleEndian(data, j);
    Words.LowOfLow(Shr(LittleEndian(data), 8 * j), 8, n);
  }

  /** extract_bits */
  method ExtractBits(data: Bytes, start: nat, count: nat) returns (val: nat)
    requires AreBytes(data) && count <= 64 && start < 8 * |data| && start + count <= 8 * |data|
    ensures val == Bits(data, start, count)
  {
    hide Shr, Low, LittleEndian, Shl, Pow2, Words.BitAnd, Words.BitOr, Words.Mask, AreBytes, Bits;
    var j := start / 8;
    var read := if count < 8 - start % 8 then count else 8 - start % 8;
    Words.MaskKeepsLowBits(Shr(data[j], start % 8), read);
    BitsOfByte(data, j, start % 8, read);
    assert 8 * j + start % 8 == start;
    val := Words.BitAnd(Shr(data[j], start % 8), Words.Mask(read));
    j := j + 1;
    while 8 <= count - read
      invariant read <= count && val == Bits(data, start, read)
      invariant read == count || start + read == 8 * j
    {
      BitsGoOn(data, start, read, j, 8);
      ByteBelow(data, j);
      ByteIsLow(data[j]);
      Words.OrAbove(val, data[j], read);
      val := Words.BitOr(val, Shl(data[j], read));
      j := j + 1;
      read := read + 8;
    }
    var remaining := count - read;
    if remaining != 0 {
      BitsGoOn(data, start, read, j, remaining);
      Words.MaskKeepsLowBits(data[j], remaining);
      Words.OrAbove(val, Low(data[j], remaining), read);
      val := Words.BitOr(val, Shl(Words.BitAnd(data[j], Words.Mask(remaining)), read));
    }
  }

  lemma ByteBelow(data: Bytes, j: nat)
    requires AreBytes(data) && j < |data|
    ensures data[j] < 256
  {
  }

  /** The value of a signed element with its sign carried through all 64 bits. */
  ghost function Extended(val: nat, width: nat): (v: nat)
    requires 0 < width <= 64 && val < Pow2(width)
  {
    Words.WordFromWidth(width);
    if val < Pow2(width - 1) then val else val + WORD - Pow2(width)
  }

  /** sign_extend: (val ^ m) - m */
  method SignExtend(val: nat, width: nat) returns (v: nat)
    requires 0 < width <= 64 && val < Pow2(width)
    ensures v == Extended(val, width)
  {
    hide Pow2, Shl;
    var m := Shl(1, width - 1);
    Words.XorBit(val, width - 1);
    Words.WordFromWidth(width);
    Words.WordFromWidth(width - 1);
    Pow2Step(width - 1);
    hide Words.BitXor;
    v := Words.Sub64(Words.BitXor(val, m), m);
  }

  /** get_element: the flag is the top bit of the element, for unsigned types too. */
  ghost function Element(isSigned: bool, width: nat, val: nat): (n: Number)
    requires 0 < width <= 64 && val < Pow2(width)
  {
    Number(val >= Pow2(width - 1), if isSigned then Extended(val, width) else val)
  }

  lemma {:induction false} TopBit(val: nat, k: nat)
    requires val < Pow2(k + 1)
    ensures Shr(val, k) % 2 == 1 <==> val >= Pow2(k)
  {
    ShrBelow(val, 1, k);
    ShrBelow(val, 0, k);
    assert Pow2(1) == 2 && Pow2(0) == 1;
  }

  /** The bits above the element do not change its top bit. */
  lemma TopBitOfExtended(val: nat, width: nat)
    requires 0 < width <= 64 && val < Pow2(width)
    ensures Shr(Extended(val, width), width - 1) % 2 == 1 <==> val >= Pow2(width - 1)
  {
    hide Pow2, Shl, Shr;
    Words.WordFromWidth(width);
    TopBit(val, width - 1);
    if val >= Pow2(width - 1) {
      var q: nat := Pow2(64 - width) - 1;
      ShlSum(Pow2(64 - width), q, 1, width);
      ShlIsPow2(width);
      ShlDouble(q, width - 1);
      ShlShl(q, 1, width - 1);
      TwiceAsShl(q);
      ShrOfSum(val, 2 * q, width - 1);
      assert Extended(val, width) == val + Shl(2 * q, width - 1);
    }
  }

  lemma TwiceAsShl(q: nat)
    ensures Shl(q, 1) == 2 * q
  {
    assert Shl(q, 0) == q;
  }

  method GetElement(isSigned: bool, width: nat, data: Bytes, idx: nat) returns (n: Number)
    requires IsWidth(width) && AreBytes(data) && width * idx + width <= 8 * |data|
    ensures var val := Bits(data, width * idx, width);
            val < Pow2(width) && n == Element(isSigned, width, val)
  {
    BitsBelow(data, width * idx, width);
    hide Pow2, Shl, Shr, Bits;
    var raw := ExtractBits(data, width * idx, width);
    var val := raw;
    if isSigned {
      val := SignExtend(raw, width);
      TopBitOfExtended(raw, width);
    } else {
      TopBit(raw, width - 1);
    }
    Words.AndBit(val, width - 1);
    var isNeg := Words.BitAnd(val, Shl(1, width - 1)) != 0;
    n := Number(isNeg, val);
  }

  // ----- bytes and back -----

  /** The lowest n bytes of a word in memory. */
  ghost function BytesOf(v: nat, n: nat): (bytes: Bytes)
    ensures |bytes| == n
  {
    seq(n, i requires 0 <= i < n => Low(Shr(v, 8 * i), 8))
  }

  lemma {:induction false} BytesOfLittleEndian(bytes: Bytes, i: nat)
    requires AreBytes(bytes) && i < |bytes|
    ensures Low(Shr(LittleEndian(bytes), 8 * i), 8) == bytes[i]
    decreases |bytes|
  {
    hide Shl, Shr, Low, Pow2;
    var n := |bytes| - 1;
    var front, last := bytes[..n], bytes[n];
    LittleEndianBelow(front);
    if i < n {
      BytesOfLittleEndian(front, i);
      HigherByte(LittleEndian(front), last, i, 8 * n);
    } else {
      ShrOfSum(LittleEndian(front), last, 8 * n);
      ShrOfSmall(LittleEndian(front), 8 * n);
      ByteIsLow(last);
    }
  }

  lemma ByteIsLow(b: nat)
    requires b < 256
    ensures Low(b, 8) == b
  {
    assert Pow2(8) == 256;
    hide Pow2;
    ShrOfSmall(b, 8);
  }

  /** What is added above byte i does not change byte i. */
  lemma HigherByte(v: nat, b: nat, i: nat, k: nat)
    requires 8 * i + 8 <= k
    ensures Low(Shr(v + Shl(b, k), 8 * i), 8) == Low(Shr(v, 8 * i), 8)
  {
    hide Shl, Shr, Low;
    var d := k - 8 * i - 8;
    ShlShl(b, d, 8 + 8 * i);
    ShlShl(Shl(b, d), 8, 8 * i);
    ShrOfSum(v, Shl(Shl(b, d), 8), 8 * i);
    Words.LowOfSum(Shr(v, 8 * i), Shl(b, d), 8);
  }

  /** Sign extension does not change the bytes that lie in the element. */
  lemma ExtendedBytes(val: nat, width: nat)
    requires IsWidth(width) && val < Pow2(width)
    ensures BytesOf(Extended(val, width), width / 8) == BytesOf(val, width / 8)
  {
    hide Low, Shr, Shl, Pow2;
    Words.WordFromWidth(width);
    if val >= Pow2(width - 1) {
      var q: nat := Pow2(64 - width) - 1;
      ShlSum(Pow2(64 - width), q, 1, width);
      ShlIsPow2(width);
      forall i: nat | i < width / 8
        ensures Low(Shr(Extended(val, width), 8 * i), 8) == Low(Shr(val, 8 * i), 8)
      {
        assert Extended(val, width) == val + Shl(q, width);
        HigherByte(val, q, i, width);
      }
    }
  }

  /** An element of whole bytes has the bytes where it was read. */
  lemma BytesOfBits(data: Bytes, at: nat, n: nat)
    requires AreBytes(data) && at + n <= |data|
    ensures BytesOf(Bits(data, 8 * at, 8 * n), n) == data[at..at + n]
  {
    hide Low, Shr, LittleEndian;
    var y := Shr(LittleEndian(data), 8 * at);
    forall i: nat | i < n
      ensures Low(Shr(Low(y, 8 * n), 8 * i), 8) == data[at + i]
    {
      ShrOfLow(y, 8 * i, 8 * n - 8 * i);
      assert 8 * i + (8 * n - 8 * i) == 8 * n;
      Words.LowOfLow(Shr(y, 8 * i), 8 * n - 8 * i, 8);
      ShrShr(LittleEndian(data), 8 * at, 8 * i);
      BytesOfLittleEndian(data, at + i);
      assert 8 * at + 8 * i == 8 * (at + i);
    }
  }

  // ----- printing and reading numbers -----

  /** The conversion of a word to int64_t. */
  function ToInt64(v: nat): (i: int) { if v < 0x8000_0000_0000_0000 then v else v - WORD }

  /** to_str(Number) */
  function NumberToString(n: Number): (s: string) {
    IntToString(if n.isNeg then ToInt64(n.value) else n.value)
  }

  /** What parse_int makes of the printed number. */
  function Reread(n: Number): (m: Number) {
    Number(n.isNeg && n.value >= 0x8000_0000_0000_0000, n.value)
  }

  /** A printed number is read back with its value; its flag only survives if the value prints as negative. */
  lemma NumberRoundTrip(n: Number)
    requires IsWordNumber(n)
    ensures ParseInt(NumberToString(n)) == Some(Reread(n))
  {
    hide ParseInt, ToString;
    if n.isNeg && n.value >= 0x8000_0000_0000_0000 {
      NegativeNumber(WORD - n.value);
    } else {
      PrintedNumber(n.value);
    }
  }

  lemma NegativeNumber(m: nat)
    requires 0 < m < WORD
    ensures ParseInt("-" + ToString(m)) == Some(Number(true, WORD - m))
  {
    ToStringDigits(m);
    hide Digits, ToString;
    var s := "-" + ToString(m);
    assert s[0] == '-' && s[1..] == ToString(m);
    assert IsDigit(ToString(m)[0]);
  }

  /** The element can be read back against its own type: not for the upper half of uint64. */
  predicate Survives(isSigned: bool, width: nat, val: nat) {
    isSigned || width < 64 || val < 0x8000_0000_0000_0000
  }

  lemma HalfWord()
    ensures Pow2(63) == 0x8000_0000_0000_0000
  {
    Words.WordIsPow2();
    hide Pow2;
    Pow2Step(63);
  }

  /** The printed element is representable again exactly if it survives. */
  lemma ElementRepresentable(isSigned: bool, width: nat, val: nat)
    requires IsWidth(width) && val < Pow2(width)
    ensures IsWordNumber(Element(isSigned, width, val))
    ensures IsRepresentable(isSigned, width, Reread(Element(isSigned, width, val))) <==> Survives(isSigned, width, val)
  {
    hide Pow2, IsRepresentable;
    Words.WordFromWidth(width);
    HalfWord();
    Pow2Step(width - 1);
    Words.WordFromWidth(width - 1);
    if width < 64 {
      Pow2Mono(width, 63);
    }
    RepresentableIsInRange(isSigned, width, Reread(Element(isSigned, width, val)));
  }

  /** The largest uint64 is printed as -1, which is no value of its type. */
  lemma LargestIsLost()
    ensures WORD - 1 < Pow2(64) && NumberToString(Element(false, 64, WORD - 1)) == "-1"
    ensures !IsRepresentable(false, 64, Reread(Element(false, 64, WORD - 1)))
  {
    Words.WordIsPow2();
    HalfWord();
    hide Pow2, IsRepresentable;
    ElementRepresentable(false, 64, WORD - 1);
    assert ToString(1) == "1";
  }

  /** The bytes that are written for the element are its own. */
  lemma ElementBytes(isSigned: bool, width: nat, val: nat)
    requires IsWidth(width) && val < Pow2(width)
    ensures BytesOf(Reread(Element(isSigned, width, val)).value, width / 8) == BytesOf(val, width / 8)
  {
    hide Pow2, BytesOf;
    if isSigned {
      ExtendedBytes(val, width);
    }
  }
}
