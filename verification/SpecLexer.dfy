/** The lexer of the spec language (ParseState), and the numbers it reads. */
module SpecLexer {
  import opened Basics

  datatype Kind =
    | Identifier | IntegerLiteral
    | BraceLeft | BraceRight | BracketLeft | BracketRight | Colon | Comma | Semicolon
    | Assign | Separator | Eq | Ne | LAnd | LOr
    | LTrue | LFalse | Global | Spec | PrintWord | End

  datatype Token = Token(kind: Kind, text: string)

  /** The current token and the position after it. */
  datatype State = State(tok: Token, pos: nat)

  // ----- characters, as in the C locale -----

  predicate IsSpace(c: char) { c == ' ' || ('\t' <= c <= '\r') }

  predicate IsDigit(c: char) { '0' <= c <= '9' }

  predicate IsAlpha(c: char) { 'a' <= c <= 'z' || 'A' <= c <= 'Z' }

  predicate IsAlnum(c: char) { IsDigit(c) || IsAlpha(c) }

  predicate IsWordChar(c: char) { IsAlnum(c) || c == '_' }

  // ----- white space and comments -----

  function SkipSpaces(text: string, pos: nat): (p: nat)
    requires pos <= |text|
    ensures pos <= p <= |text|
    decreases |text| - pos
  {
    if pos < |text| && IsSpace(text[pos]) then SkipSpaces(text, pos + 1) else pos
  }

  function SkipLine(text: string, pos: nat): (p: nat)
    requires pos <= |text|
    ensures pos <= p <= |text| && (pos < |text| ==> pos < p)
    decreases |text| - pos
  {
    if pos == |text| then pos
    else if text[pos] == '\n' then pos + 1
    else SkipLine(text, pos + 1)
  }

  function SkipMultilineComment(text: string, pos: nat): (p: Option<nat>)
    requires pos <= |text|
    ensures p.Some? ==> pos < p.value <= |text|
    decreases |text| - pos
  {
    if |text| - pos < 2 then None
    else if text[pos] == '*' && text[pos + 1] == '/' then Some(pos + 2)
    else SkipMultilineComment(text, pos + 1)
  }

  /** None stands for the exception about a comment that is not closed. */
  function SkipComments(text: string, pos: nat): (p: Option<nat>)
    requires pos <= |text|
    ensures p.Some? ==> pos <= p.value <= |text|
    decreases |text| - pos
  {
    var q := SkipSpaces(text, pos);
    if |text| - q >= 2 && text[q] == '/' && text[q + 1] == '/' then
      SkipComments(text, SkipLine(text, q))
    else if |text| - q >= 2 && text[q] == '/' && text[q + 1] == '*' then
      match SkipMultilineComment(text, q)
      case None => None
      case Some(r) => SkipComments(text, r)
    else Some(q)
  }

  lemma {:induction false} NoMoreSpaces(text: string, pos: nat)
    requires pos <= |text|
    ensures SkipSpaces(text, SkipSpaces(text, pos)) == SkipSpaces(text, pos)
    decreases |text| - pos
  {
    if pos < |text| && IsSpace(text[pos]) {
      NoMoreSpaces(text, pos + 1);
    }
  }

  // ----- tokens -----

  const TOKENS: seq<(string, Kind)> := [
    ("---", Separator), ("||", LOr), ("&&", LAnd), ("!=", Ne), ("==", Eq), ("=", Assign),
    ("{", BraceLeft), ("}", BraceRight), ("[", BracketLeft), ("]", BracketRight),
    (":", Colon), (",", Comma), (";", Semicolon)
  ]

  predicate StartsWith(text: string, pos: nat, s: string) {
    pos + |s| <= |text| && text[pos..pos + |s|] == s
  }

  /** find_token: the first entry of the table that fits. */
  function FindToken(text: string, pos: nat, i: nat): (t: Option<(string, Kind)>)
    requires i <= |TOKENS|
    ensures t.Some? ==> StartsWith(text, pos, t.value.0) && |t.value.0| > 0
    decreases |TOKENS| - i
  {
    if i == |TOKENS| then None
    else if StartsWith(text, pos, TOKENS[i].0) then (assert |TOKENS[i].0| > 0; Some(TOKENS[i]))
    else FindToken(text, pos, i + 1)
  }

  /** The end of a run of letters and digits, and of underscores where these belong to it. */
  function RunEnd(text: string, pos: nat, underscores: bool): (p: nat)
    requires pos <= |text|
    ensures pos <= p <= |text|
    decreases |text| - pos
  {
    if pos < |text| && (IsAlnum(text[pos]) || (underscores && text[pos] == '_')) then RunEnd(text, pos + 1, underscores)
    else pos
  }

  function WordKind(word: string): (k: Kind) {
    if word == "global" then Global
    else if word == "spec" then Spec
    else if word == "print" then PrintWord
    else if word == "true" then LTrue
    else if word == "false" then LFalse
    else Identifier
  }

  /** ParseState::next, from a position; None stands for its exceptions. */
  function Lex(text: string, pos: nat): (s: Option<State>)
    requires pos <= |text|
    ensures s.Some? ==> pos <= s.value.pos <= |text| && (s.value.tok.kind != End ==> pos < s.value.pos)
  {
    match SkipComments(text, pos)
    case None => None
    case Some(p) =>
      if p == |text| then Some(State(Token(End, ""), p))
      else
        var entry := FindToken(text, p, 0);
        if entry.Some? then
          Some(State(Token(entry.value.1, entry.value.0), p + |entry.value.0|))
        else if IsDigit(text[p]) || text[p] == '-' then
          var e := RunEnd(text, if text[p] == '-' then p + 1 else p, false);
          if text[p] == '-' && e == p + 1 then None
          else (RunGoesOn(text, p, false); Some(State(Token(IntegerLiteral, text[p..e]), e)))
        else if IsAlpha(text[p]) then
          var e := RunEnd(text, p + 1, true);
          Some(State(Token(WordKind(text[p..e]), text[p..e]), e))
        else None
  }

  lemma RunGoesOn(text: string, pos: nat, underscores: bool)
    requires pos < |text|
    ensures IsAlnum(text[pos]) ==> RunEnd(text, pos, underscores) > pos
  {
  }

  // ----- numbers -----

  /** Number: the value as 64 bits, and whether it is meant as a negative number. */
  datatype Number = Number(isNeg: bool, value: nat)

  function DigitValue(c: char): (d: nat) {
    if IsDigit(c) then (c - '0') as nat
    else if 'a' <= c <= 'z' then (c - 'a') as nat + 10
    else if 'A' <= c <= 'Z' then (c - 'A') as nat + 10
    else 36
  }

  /** All of s as digits of the base. */
  function Digits(s: string, base: nat): (v: Option<nat>) {
    if s == "" then Some(0)
    else
      var front := Digits(s[..|s| - 1], base);
      var d := DigitValue(s[|s| - 1]);
      if front.None? || d >= base then None else Some(front.value * base + d)
  }

  /** strtoull with base 0: hexadecimal after 0x, octal after 0, otherwise decimal. */
  function Unsigned(s: string): (v: Option<nat>) {
    if s == "" then None
    else if |s| > 2 && s[0] == '0' && (s[1] == 'x' || s[1] == 'X') then Digits(s[2..], 16)
    else if s[0] == '0' then Digits(s, 8)
    else Digits(s, 10)
  }

  /** parse_int: all of the text must be a number, and one that fits. */
  function ParseInt(s: string): (n: Option<Number>) {
    if s == "" then None
    else
      var isNeg := s[0] == '-';
      match Unsigned(if isNeg then s[1..] else s)
      case None => None
      case Some(v) =>
        if v >= WORD then None
        else Some(Number(isNeg, if isNeg && v > 0 then WORD - v else v))
  }

  /** std::to_string */
  function ToString(n: nat): (s: string) {
    if n < 10 then [Digit(n)] else ToString(n / 10) + [Digit(n % 10)]
  }

  function Digit(d: nat): (c: char)
    requires d < 10
  {
    '0' + (d as char)
  }

  lemma DigitIsDigit(d: nat)
    requires d < 10
    ensures IsDigit(Digit(d)) && DigitValue(Digit(d)) == d && (Digit(d) == '0' <==> d == 0)
  {
  }

  lemma OneMoreDigit(front: string, c: char, base: nat)
    requires Digits(front, base).Some? && DigitValue(c) < base
    ensures Digits(front + [c], base) == Some(Digits(front, base).value * base + DigitValue(c))
  {
    assert (front + [c])[..|front|] == front;
  }

  lemma OneDigit(n: nat)
    requires n < 10
    ensures ToString(n) == [Digit(n)] && Digits(ToString(n), 10) == Some(n)
  {
    DigitIsDigit(n);
    assert Digits("", 10) == Some(0);
    OneMoreDigit("", Digit(n), 10);
    assert "" + [Digit(n)] == [Digit(n)];
  }

  lemma {:induction false} PrintedDigits(n: nat)
    ensures ToString(n) != "" && (forall i | 0 <= i < |ToString(n)| :: IsDigit(ToString(n)[i]))
    ensures ToString(n)[0] == '0' <==> n == 0
    decreases n
  {
    DigitIsDigit(n % 10);
    if n >= 10 {
      PrintedDigits(n / 10);
      hide Digit, IsDigit;
      assert ToString(n)[0] == ToString(n / 10)[0];
    }
  }

  lemma {:induction false} PrintedValue(n: nat)
    ensures Digits(ToString(n), 10) == Some(n)
    decreases n
  {
    hide Digits;
    if n < 10 {
      OneDigit(n);
    } else {
      PrintedValue(n / 10);
      DigitIsDigit(n % 10);
      OneMoreDigit(ToString(n / 10), Digit(n % 10), 10);
      assert ToString(n) == ToString(n / 10) + [Digit(n % 10)];
      assert n / 10 * 10 + n % 10 == n;
    }
  }

  lemma ToStringDigits(n: nat)
    ensures ToString(n) != "" && Digits(ToString(n), 10) == Some(n)
    ensures forall i | 0 <= i < |ToString(n)| :: IsDigit(ToString(n)[i])
    ensures ToString(n)[0] == '0' <==> n == 0
  {
    hide Digits, ToString, IsDigit;
    PrintedDigits(n);
    PrintedValue(n);
  }

  /** Every number that fits is read back as it was printed. */
  lemma PrintedNumber(n: nat)
    requires n < WORD
    ensures ParseInt(ToString(n)) == Some(Number(false, n))
  {
    ToStringDigits(n);
    var s := ToString(n);
    if n == 0 {
      assert s == "0";
      assert s[..0] == "" && Digits("", 8) == Some(0);
    }
    hide Digits, ToString;
    assert IsDigit(s[0]) && s[0] != '-';
  }

  // ----- the lexer as the code has it -----

  class ParseState {
    const text: string
    var cur: nat
    var tok: Token

    constructor (text: string)
      ensures this.text == text && cur == 0
    {
      this.text := text;
      cur := 0;
      tok := Token(End, "");
    }

    /** The token and the position after it, as a value. */
    ghost function Now(): (s: State)
      reads this
    {
      State(tok, cur)
    }

    method DoSkipSpaces()
      requires cur <= |text|
      modifies this`cur
      ensures cur == SkipSpaces(text, old(cur))
    {
      while cur < |text| && IsSpace(text[cur])
        invariant cur <= |text| && SkipSpaces(text, cur) == SkipSpaces(text, old(cur))
      {
        cur := cur + 1;
      }
    }

    method DoSkipLine()
      requires cur <= |text|
      modifies this`cur
      ensures cur == SkipLine(text, old(cur))
    {
      while cur < |text| && text[cur] != '\n'
        invariant cur <= |text| && SkipLine(text, cur) == SkipLine(text, old(cur))
      {
        cur := cur + 1;
      }
      if cur < |text| {
        cur := cur + 1;
      }
    }

    method DoSkipMultilineComment() returns (ok: bool)
      requires cur <= |text|
      modifies this`cur
      ensures ok <==> SkipMultilineComment(text, old(cur)).Some?
      ensures ok ==> cur == SkipMultilineComment(text, old(cur)).value
    {
      while |text| - cur >= 2
        invariant cur <= |text| && SkipMultilineComment(text, cur) == SkipMultilineComment(text, old(cur))
      {
        if text[cur] == '*' && text[cur + 1] == '/' {
          cur := cur + 2;
          return true;
        }
        cur := cur + 1;
      }
      return false;
    }

    method DoSkipComments() returns (ok: bool)
      requires cur <= |text|
      modifies this`cur
      ensures ok <==> SkipComments(text, old(cur)).Some?
      ensures ok ==> cur == SkipComments(text, old(cur)).value
    {
      while cur < |text|
        invariant cur <= |text| && SkipComments(text, cur) == SkipComments(text, old(cur))
        decreases |text| - cur
      {
        NoMoreSpaces(text, cur);
        DoSkipSpaces();
        if |text| - cur >= 2 && text[cur] == '/' && text[cur + 1] == '/' {
          DoSkipLine();
        } else if |text| - cur >= 2 && text[cur] == '/' && text[cur + 1] == '*' {
          ok := DoSkipMultilineComment();
          if !ok { return; }
        } else {
          assert SkipComments(text, old(cur)) == Some(cur);
          break;
        }
      }
      DoSkipSpaces();
      return true;
    }

    /** find_token */
    method DoFindToken() returns (kind: Option<Kind>, found: string)
      requires cur <= |text|
      modifies this`cur
      ensures var entry := FindToken(text, old(cur), 0);
              if entry.Some? then kind == Some(entry.value.1) && found == entry.value.0 && cur == old(cur) + |found|
              else kind == None && cur == old(cur)
    {
      for i := 0 to |TOKENS|
        invariant cur == old(cur) && FindToken(text, cur, i) == FindToken(text, cur, 0)
      {
        if StartsWith(text, cur, TOKENS[i].0) {
          cur := cur + |TOKENS[i].0|;
          return Some(TOKENS[i].1), TOKENS[i].0;
        }
      }
      return None, "";
    }

    method SkipRun(underscores: bool)
      requires cur <= |text|
      modifies this`cur
      ensures cur == RunEnd(text, old(cur), underscores)
    {
      while cur < |text| && (IsAlnum(text[cur]) || (underscores && text[cur] == '_'))
        invariant cur <= |text| && RunEnd(text, cur, underscores) == RunEnd(text, old(cur), underscores)
      {
        cur := cur + 1;
      }
    }

    /** ParseState::next */
    method Next() returns (ok: bool)
      requires cur <= |text|
      modifies this`cur, this`tok
      ensures ok <==> Lex(text, old(cur)).Some?
      ensures ok ==> Now() == Lex(text, old(cur)).value && cur <= |text|
    {
      hide SkipComments, FindToken, RunEnd;
      ok := DoSkipComments();
      if !ok { return; }
      if cur == |text| {
        tok := Token(End, "");
        return;
      }
      var start := cur;
      var kind, found := DoFindToken();
      if kind.Some? {
        tok := Token(kind.value, found);
      } else if IsDigit(text[cur]) || text[cur] == '-' {
        if text[cur] == '-' {
          cur := cur + 1;
        }
        SkipRun(false);
        if text[start] == '-' && cur == start + 1 {
          return false;
        }
        tok := Token(IntegerLiteral, text[start..cur]);
      } else if IsAlpha(text[cur]) {
        cur := cur + 1;
        SkipRun(true);
        tok := Token(WordKind(text[start..cur]), text[start..cur]);
      } else {
        return false;
      }
    }
  }
}
