/** Numbers in the notations of strtoull with base 0, and the values they give. */
module SpecNumbers {
  import opened Basics
  import opened SpecLexer
  import opened SpecTypes
  import opened SpecValueText

  // ----- writing numbers -----

  function DigitText(d: nat, upper: bool): (c: char)
    requires d < 16
  {
    if d < 10 then '0' + (d as char) else if upper then 'A' + ((d - 10) as char) else 'a' + ((d - 10) as char)
  }

  /** n in positional notation */
  function InBase(n: nat, base: nat, upper: bool): (s: string)
    requires 2 <= base <= 16
    ensures s != ""
    decreases n
  {
    if n < base then [DigitText(n, upper)] else InBase(n / base, base, upper) + [DigitText(n % base, upper)]
  }

  datatype Notation = Decimal | Octal | Hexadecimal(upperX: bool, upper: bool)

  function Write(n: nat, notation: Notation): (s: string) {
    match notation
    case Decimal => InBase(n, 10, false)
    case Octal => "0" + InBase(n, 8, false)
    case Hexadecimal(upperX, upper) => (if upperX then "0X" else "0x") + InBase(n, 16, upper)
  }

  // ----- reading them back -----

  lemma DigitTextIsDigit(d: nat, upper: bool)
    requires d < 16
    ensures DigitValue(DigitText(d, upper)) == d && IsAlnum(DigitText(d, upper))
    ensures d < 10 ==> IsDigit(DigitText(d, upper)) && (DigitText(d, upper) == '0' <==> d == 0)
  {
  }

  lemma QuotientAndRest(n: nat, base: nat) returns (q: nat, r: nat)
    requires 2 <= base <= 16
    ensures q == n / base && r == n % base && r < base && n == q * base + r
    ensures if n < base then q == 0 && r == n else 0 < q < n
  {
    q, r := n / base, n % base;
    assert n == q * base + r;
    if n >= base {
      assert q >= 1;
      assert q < n;
    }
  }

  lemma LastDigit(n: nat, base: nat, upper: bool, q: nat, r: nat)
    requires 2 <= base <= 16 && q == n / base && r == n % base && r < base
    ensures n < base ==> InBase(n, base, upper) == [DigitText(n, upper)]
    ensures n >= base ==> InBase(n, base, upper) == InBase(q, base, upper) + [DigitText(r, upper)]
  {
  }

  lemma {:induction false} DigitsInBase(n: nat, base: nat, upper: bool)
    requires 2 <= base <= 16
    ensures Digits(InBase(n, base, upper), base) == Some(n)
    decreases n
  {
    var q, r := QuotientAndRest(n, base);
    LastDigit(n, base, upper, q, r);
    assert Digits("", base) == Some(0);
    hide DigitText, DigitValue, InBase, Digits;
    DigitTextIsDigit(r, upper);
    if n < base {
      OneMoreDigit("", DigitText(n, upper), base);
      assert "" + [DigitText(n, upper)] == [DigitText(n, upper)];
    } else {
      DigitsInBase(q, base, upper);
      OneMoreDigit(InBase(q, base, upper), DigitText(r, upper), base);
    }
  }

  lemma {:induction false} CharsInBase(n: nat, base: nat, upper: bool)
    requires 2 <= base <= 16
    ensures forall i | 0 <= i < |InBase(n, base, upper)| :: IsAlnum(InBase(n, base, upper)[i])
    ensures base <= 10 ==> IsDigit(InBase(n, base, upper)[0]) && (InBase(n, base, upper)[0] == '0' <==> n == 0)
    decreases n
  {
    var q, r := QuotientAndRest(n, base);
    LastDigit(n, base, upper, q, r);
    hide DigitText, IsAlnum, IsDigit, InBase;
    DigitTextIsDigit(r, upper);
    if n >= base {
      CharsInBase(q, base, upper);
      assert InBase(n, base, upper)[0] == InBase(q, base, upper)[0];
    }
  }

  lemma WrittenIsLiteral(n: nat, notation: Notation)
    ensures IsLiteral(Write(n, notation))
  {
    hide InBase;
    match notation
    case Decimal => CharsInBase(n, 10, false);
    case Octal => CharsInBase(n, 8, false);
    case Hexadecimal(upperX, upper) => CharsInBase(n, 16, upper);
  }

  /** Every notation gives its number. */
  lemma UnsignedOfWritten(n: nat, notation: Notation)
    ensures SpecLexer.Unsigned(Write(n, notation)) == Some(n)
  {
    match notation
    case Decimal =>
      DigitsInBase(n, 10, false);
      CharsInBase(n, 10, false);
      if n == 0 {
        ZeroAlone();
      }
    case Octal => OctalNumber(n);
    case Hexadecimal(upperX, upper) =>
      DigitsInBase(n, 16, upper);
      hide InBase, Digits;
      var s := Write(n, notation);
      assert s[2..] == InBase(n, 16, upper);
  }

  lemma ZeroAlone()
    ensures InBase(0, 10, false) == "0" && Digits("0", 8) == Some(0) && Digits("0", 10) == Some(0)
  {
    assert InBase(0, 8, false) == "0";
    DigitsInBase(0, 8, false);
    DigitsInBase(0, 10, false);
  }

  /** A leading zero does not change the value. */
  lemma {:induction false} LeadingZero(s: string, base: nat)
    requires 2 <= base && Digits(s, base).Some?
    ensures Digits("0" + s, base) == Digits(s, base)
    decreases |s|
  {
    if s == "" {
      assert Digits("", base) == Some(0);
      OneMoreDigit("", '0', base);
      assert "" + ['0'] == "0" + s;
    } else {
      var front, c := s[..|s| - 1], s[|s| - 1];
      LeadingZero(front, base);
      assert "0" + s == ("0" + front) + [c];
      OneMoreDigit("0" + front, c, base);
    }
  }

  lemma OctalNumber(n: nat)
    ensures SpecLexer.Unsigned("0" + InBase(n, 8, false)) == Some(n)
  {
    DigitsInBase(n, 8, false);
    CharsInBase(n, 8, false);
    LeadingZero(InBase(n, 8, false), 8);
    hide InBase, Digits;
    var s := "0" + InBase(n, 8, false);
    assert s[1] == InBase(n, 8, false)[0];
  }

  /** parse_int reads all notations: every number that fits, with its sign; larger ones are refused. */
  lemma WrittenNumber(n: nat, notation: Notation)
    ensures ParseInt(Write(n, notation)) == if n < WORD then Some(Number(false, n)) else None
    ensures ParseInt("-" + Write(n, notation)) == if n < WORD then Some(Number(true, if n > 0 then WORD - n else 0)) else None
  {
    UnsignedOfWritten(n, notation);
    WrittenIsLiteral(n, notation);
    hide Write, SpecLexer.Unsigned;
    var s := "-" + Write(n, notation);
    assert s[1..] == Write(n, notation);
  }

  /** A value in any of the notations is read as the number. */
  lemma WrittenValue(n: nat, notation: Notation, negative: bool) returns (s: State)
    requires n < WORD
    ensures var text := (if negative then "-" else "") + Write(n, notation);
            && At(text, 0, s)
            && ReadsValue(text, s, IntegerNode(Number(negative, if negative && n > 0 then WORD - n else n)),
                          State(Token(End, ""), |text|))
  {
    var digits := Write(n, notation);
    var text := (if negative then "-" else "") + digits;
    WrittenIsLiteral(n, notation);
    WrittenNumber(n, notation);
    AtEnd(text);
    hide Write, Lex, ReadsValue, ParseInt;
    assert text[0..|text|] == text;
    s := State(Token(IntegerLiteral, text), |text|);
    if negative {
      LexNegativeLiteral(text, 0, digits);
    } else {
      assert text == digits;
      LexLiteral(text, 0, digits);
    }
    ReadNumber(text, s, Number(negative, if negative && n > 0 then WORD - n else n), State(Token(End, ""), |text|));
  }

  /** parse_value on such a text, as the code does it. */
  method ParseWritten(n: nat, notation: Notation, negative: bool) returns (ok: bool, node: ValueNode)
    requires n < WORD
    ensures ok && node == IntegerNode(Number(negative, if negative && n > 0 then WORD - n else n))
  {
    hide Write, Lex, ParseValue;
    var text := (if negative then "-" else "") + Write(n, notation);
    ghost var s := WrittenValue(n, notation, negative);
    var state := new ParseState(text);
    ok := state.Next();
    ok, node := DoParseValue(state);
  }
}
