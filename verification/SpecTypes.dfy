/** Types of the spec language: the printer, the parser, and that parsing undoes printing. */
module SpecTypes {
  import opened Basics
  import opened SpecLexer

  datatype Type =
    | BoolType
    | BitsType(width: int)
    | IntegerType(isSigned: bool, width: int)
    | ArrayType(sub: Type, length: int)
    | StructType(members: seq<Member>)

  datatype Member = Member(name: string, ty: Type)

  /** std::to_string of an int */
  function IntToString(i: int): (s: string) { if i < 0 then "-" + ToString(-i) else ToString(i) }

  // ----- printing -----

  /** type_to_string: arrays append their dimension to the output, and the leaf is put in front. */
  ghost function PrintOnto(t: Type, out: string): (s: string)
    decreases t
  {
    match t
    case BitsType(width) => "bits#" + IntToString(width) + out
    case BoolType => "bool" + out
    case IntegerType(isSigned, width) => (if isSigned then "int" else "uint") + IntToString(width) + out
    case ArrayType(sub, length) => PrintOnto(sub, out + "[" + IntToString(length) + "]")
    case StructType(members) => "{" + PrintMembers(members) + "}" + out
  }

  ghost function PrintMembers(ms: seq<Member>): (s: string)
    decreases ms
  {
    if ms == [] then "" else ms[0].name + ": " + PrintOnto(ms[0].ty, "") + "; " + PrintMembers(ms[1..])
  }

  method TypeToString(t: Type, out: string) returns (out': string)
    ensures out' == PrintOnto(t, out)
    decreases t
  {
    out' := out;
    match t
    case BitsType(width) => out' := "bits#" + IntToString(width) + out';
    case BoolType => out' := "bool" + out';
    case IntegerType(isSigned, width) =>
      var typeName := if isSigned then "int" else "uint";
      out' := typeName + IntToString(width) + out';
    case ArrayType(sub, length) =>
      out' := out' + "[" + IntToString(length) + "]";
      out' := TypeToString(sub, out');
    case StructType(members) =>
      var structStr := "";
      for i := 0 to |members|
        invariant structStr + PrintMembers(members[i..]) == PrintMembers(members)
      {
        var memberStr := TypeToString(members[i].ty, "");
        assert members[i..][1..] == members[i + 1..];
        structStr := structStr + (members[i].name + ": " + memberStr + "; ");
      }
      out' := "{" + structStr + "}" + out';
  }

  // ----- parsing -----

  /** Error stands for the exceptions. */
  datatype Parsed<T> = Ok(value: T, state: State) | Error

  /** A bound on the tokens to come, the current one included. */
  function Left(text: string, s: State): (n: nat)
    requires s.pos <= |text|
  {
    if s.tok.kind == End then 0 else |text| - s.pos + 1
  }

  function Accept(text: string, s: State, kind: Kind): (r: Parsed<string>)
    requires s.pos <= |text|
    ensures r.Ok? ==> r.state.pos <= |text| && (kind != End ==> Left(text, r.state) < Left(text, s))
  {
    if s.tok.kind != kind then Error
    else
      match Lex(text, s.pos)
      case None => Error
      case Some(next) => Ok(s.tok.text, next)
  }

  /** The conversion of a 64-bit value to int keeps the low 32 bits. */
  function ToInt(v: nat): (i: int) {
    var low: int := v % 0x1_0000_0000;
    if low < 0x8000_0000 then low else low - 0x1_0000_0000
  }

  function LookupIntegerTypeName(name: string): (t: Option<Type>) {
    if StartsWith(name, 0, "int") then IntegerNamed(true, name[3..])
    else if StartsWith(name, 0, "uint") then IntegerNamed(false, name[4..])
    else None
  }

  function IntegerNamed(isSigned: bool, width: string): (t: Option<Type>) {
    match ParseInt(width)
    case None => None
    case Some(n) => if n.isNeg then None else Some(IntegerType(isSigned, ToInt(n.value)))
  }

  function ParseType(text: string, s: State): (r: Parsed<Type>)
    requires s.pos <= |text|
    ensures r.Ok? ==> r.state.pos <= |text| && Left(text, r.state) < Left(text, s)
    decreases Left(text, s), 1
  {
    match ParseScalarOrStruct(text, s)
    case Error => Error
    case Ok(sub, s1) => ParseArrayDimensions(text, s1, sub)
  }

  function ParseScalarOrStruct(text: string, s: State): (r: Parsed<Type>)
    requires s.pos <= |text|
    ensures r.Ok? ==> r.state.pos <= |text| && Left(text, r.state) < Left(text, s)
    decreases Left(text, s), 0
  {
    if s.tok.kind == BraceLeft then
      match Accept(text, s, BraceLeft)
      case Error => Error
      case Ok(_, s1) =>
        match ParseMembers(text, s1, [])
        case Error => Error
        case Ok(members, s2) =>
          match Accept(text, s2, BraceRight)
          case Error => Error
          case Ok(_, s3) => Ok(StructType(members), s3)
    else
      match Accept(text, s, Identifier)
      case Error => Error
      case Ok(id, s1) =>
        if id == "bool" then Ok(BoolType, s1)
        else
          match LookupIntegerTypeName(id)
          case None => Error
          case Some(t) => Ok(t, s1)
  }

  /** The loop over the members, up to the closing brace. */
  function ParseMembers(text: string, s: State, members: seq<Member>): (r: Parsed<seq<Member>>)
    requires s.pos <= |text|
    ensures r.Ok? ==> r.state.pos <= |text| && Left(text, r.state) <= Left(text, s)
    decreases Left(text, s), 2
  {
    if s.tok.kind == BraceRight then Ok(members, s)
    else
      match Accept(text, s, Identifier)
      case Error => Error
      case Ok(id, s1) =>
        match Accept(text, s1, Colon)
        case Error => Error
        case Ok(_, s2) =>
          match ParseType(text, s2)
          case Error => Error
          case Ok(ty, s3) =>
            match Accept(text, s3, Semicolon)
            case Error => Error
            case Ok(_, s4) => ParseMembers(text, s4, members + [Member(id, ty)])
  }

  /** The first dimension is the outermost. */
  function ParseArrayDimensions(text: string, s: State, sub: Type): (r: Parsed<Type>)
    requires s.pos <= |text|
    ensures r.Ok? ==> r.state.pos <= |text| && Left(text, r.state) <= Left(text, s)
    decreases Left(text, s)
  {
    if s.tok.kind != BracketLeft then Ok(sub, s)
    else
      match Accept(text, s, BracketLeft)
      case Error => Error
      case Ok(_, s1) =>
        match Accept(text, s1, IntegerLiteral)
        case Error => Error
        case Ok(number, s2) =>
          match ParseInt(number)
          case None => Error
          case Some(n) =>
            match Accept(text, s2, BracketRight)
            case Error => Error
            case Ok(_, s3) =>
              match ParseArrayDimensions(text, s3, sub)
              case Error => Error
              case Ok(inner, s4) => Ok(ArrayType(inner, ToInt(n.value)), s4)
  }

  // ----- the parser as the code has it -----

  method DoAccept(state: ParseState, kind: Kind) returns (ok: bool, text: string)
    requires state.cur <= |state.text|
    modifies state
    ensures ok <==> Accept(state.text, old(state.Now()), kind).Ok?
    ensures ok ==> Accept(state.text, old(state.Now()), kind) == Ok(text, state.Now()) && state.cur <= |state.text|
    ensures !ok ==> text == ""
  {
    text := "";
    if state.tok.kind != kind {
      return false, text;
    }
    var accepted := state.tok.text;
    ok := state.Next();
    if ok {
      text := accepted;
    }
  }

  method DoParseType(state: ParseState) returns (ok: bool, t: Type)
    requires state.cur <= |state.text|
    modifies state
    ensures ok <==> ParseType(state.text, old(state.Now())).Ok?
    ensures ok ==> ParseType(state.text, old(state.Now())) == Ok(t, state.Now()) && state.cur <= |state.text|
    decreases Left(state.text, state.Now()), 1
  {
    ok, t := DoParseScalarOrStruct(state);
    if !ok { return; }
    ok, t := DoParseArrayDimensions(state, t);
  }

  method DoParseScalarOrStruct(state: ParseState) returns (ok: bool, t: Type)
    requires state.cur <= |state.text|
    modifies state
    ensures ok <==> ParseScalarOrStruct(state.text, old(state.Now())).Ok?
    ensures ok ==> ParseScalarOrStruct(state.text, old(state.Now())) == Ok(t, state.Now()) && state.cur <= |state.text|
    decreases Left(state.text, state.Now()), 0
  {
    hide Lex;
    t := BoolType;
    var text;
    if state.tok.kind == BraceLeft {
      ok, text := DoAccept(state, BraceLeft);
      if !ok { return; }
      var members;
      ok, members := DoParseMembers(state);
      if !ok { return; }
      ok, text := DoAccept(state, BraceRight);
      t := StructType(members);
    } else {
      ok, text := DoAccept(state, Identifier);
      if !ok || text == "bool" { return; }
      var found := LookupIntegerTypeName(text);
      ok := found.Some?;
      if ok {
        t := found.value;
      }
    }
  }

  /** The loop over the members. */
  method DoParseMembers(state: ParseState) returns (ok: bool, members: seq<Member>)
    requires state.cur <= |state.text|
    modifies state
    ensures ok <==> ParseMembers(state.text, old(state.Now()), []).Ok?
    ensures ok ==> ParseMembers(state.text, old(state.Now()), []) == Ok(members, state.Now()) && state.cur <= |state.text|
    decreases Left(state.text, state.Now()), 2
  {
    hide Lex;
    ghost var s0 := state.Now();
    members := [];
    ok := true;
    var text;
    while state.tok.kind != BraceRight
      invariant ok && state.cur <= |state.text| && Left(state.text, state.Now()) <= Left(state.text, s0)
      invariant ParseMembers(state.text, state.Now(), members) == ParseMembers(state.text, s0, [])
      decreases Left(state.text, state.Now())
    {
      var name, ty;
      ok, name := DoAccept(state, Identifier);
      if !ok { return; }
      ok, text := DoAccept(state, Colon);
      if !ok { return; }
      ok, ty := DoParseType(state);
      if !ok { return; }
      ok, text := DoAccept(state, Semicolon);
      if !ok { return; }
      members := members + [Member(name, ty)];
    }
  }

  method DoParseArrayDimensions(state: ParseState, sub: Type) returns (ok: bool, t: Type)
    requires state.cur <= |state.text|
    modifies state
    ensures ok <==> ParseArrayDimensions(state.text, old(state.Now()), sub).Ok?
    ensures ok ==> ParseArrayDimensions(state.text, old(state.Now()), sub) == Ok(t, state.Now()) && state.cur <= |state.text|
    decreases Left(state.text, state.Now())
  {
    hide Lex;
    t := sub;
    if state.tok.kind != BracketLeft {
      return true, t;
    }
    var text, number;
    ok, text := DoAccept(state, BracketLeft);
    if !ok { return; }
    ok, number := DoAccept(state, IntegerLiteral);
    if !ok { return; }
    var n := ParseInt(number);
    if n == None {
      return false, t;
    }
    ok, text := DoAccept(state, BracketRight);
    if !ok { return; }
    var inner;
    ok, inner := DoParseArrayDimensions(state, sub);
    t := ArrayType(inner, ToInt(n.value.value));
  }

  // ----- lexing printed text -----

  predicate IsPunctuation(c: char) { c == '{' || c == '}' || c == '[' || c == ']' || c == ':' || c == ',' || c == ';' }

  function PunctuationKind(c: char): (k: Kind)
    requires IsPunctuation(c)
  {
    match c
    case '{' => BraceLeft
    case '}' => BraceRight
    case '[' => BracketLeft
    case ']' => BracketRight
    case ':' => Colon
    case ',' => Comma
    case _ => Semicolon
  }

  lemma {:induction false} FindsEntry(text: string, pos: nat, i: nat, j: nat)
    requires i <= j < |TOKENS| && StartsWith(text, pos, TOKENS[j].0)
    requires forall k | i <= k < j :: !StartsWith(text, pos, TOKENS[k].0)
    ensures FindToken(text, pos, i) == Some(TOKENS[j])
    decreases j - i
  {
    if i < j {
      FindsEntry(text, pos, i + 1, j);
    }
  }

  lemma {:induction false} FindsNone(text: string, pos: nat, i: nat)
    requires i <= |TOKENS| && forall k | i <= k < |TOKENS| :: !StartsWith(text, pos, TOKENS[k].0)
    ensures FindToken(text, pos, i) == None
    decreases |TOKENS| - i
  {
    if i < |TOKENS| {
      FindsNone(text, pos, i + 1);
    }
  }

  lemma FirstChar(text: string, pos: nat, s: string)
    requires s != "" && StartsWith(text, pos, s)
    ensures text[pos] == s[0]
  {
    assert text[pos..pos + |s|][0] == text[pos];
  }

  lemma SpacesEndHere(text: string, pos: nat)
    requires pos < |text| && !IsSpace(text[pos]) && text[pos] != '/'
    ensures SkipComments(text, pos) == Some(pos)
  {
  }

  lemma LexPunctuation(text: string, pos: nat)
    requires pos < |text| && IsPunctuation(text[pos])
    ensures Lex(text, pos) == Some(State(Token(PunctuationKind(text[pos]), [text[pos]]), pos + 1))
  {
    hide FindToken;
    SpacesEndHere(text, pos);
    var c := text[pos];
    var j := if c == '{' then 6 else if c == '}' then 7 else if c == '[' then 8 else if c == ']' then 9
             else if c == ':' then 10 else if c == ',' then 11 else 12;
    assert TOKENS[j].0 == [c];
    assert text[pos..pos + 1] == [c];
    forall k | 0 <= k < j
      ensures !StartsWith(text, pos, TOKENS[k].0)
    {
      if StartsWith(text, pos, TOKENS[k].0) {
        FirstChar(text, pos, TOKENS[k].0);
      }
    }
    FindsEntry(text, pos, 0, j);
  }

  lemma {:induction false} RunOf(text: string, pos: nat, n: nat, underscores: bool)
    requires pos + n <= |text|
    requires forall i | pos <= i < pos + n :: IsAlnum(text[i]) || (underscores && text[i] == '_')
    requires pos + n < |text| ==> !IsWordChar(text[pos + n])
    ensures RunEnd(text, pos, underscores) == pos + n
    decreases n
  {
    if n > 0 {
      RunOf(text, pos + 1, n - 1, underscores);
    }
  }

  lemma NoSymbol(text: string, pos: nat)
    requires pos < |text| && IsAlnum(text[pos])
    ensures FindToken(text, pos, 0) == None && SkipComments(text, pos) == Some(pos)
  {
    SpacesEndHere(text, pos);
    forall k | 0 <= k < |TOKENS|
      ensures !StartsWith(text, pos, TOKENS[k].0)
    {
      if StartsWith(text, pos, TOKENS[k].0) {
        FirstChar(text, pos, TOKENS[k].0);
      }
    }
    FindsNone(text, pos, 0);
  }

  lemma CharAt(text: string, pos: nat, s: string, i: nat)
    requires StartsWith(text, pos, s) && i < |s|
    ensures text[pos + i] == s[i]
  {
    assert text[pos..pos + |s|][i] == text[pos + i];
  }

  /** A word ends where no word character follows. */
  ghost predicate EndsAt(text: string, pos: nat) { pos <= |text| && (pos < |text| ==> !IsWordChar(text[pos])) }

  /** A number may be written with letters, too, but starts with a digit. */
  predicate IsLiteral(s: string) { s != "" && IsDigit(s[0]) && forall i | 0 <= i < |s| :: IsAlnum(s[i]) }

  lemma LexLiteral(text: string, pos: nat, s: string)
    requires IsLiteral(s) && StartsWith(text, pos, s) && EndsAt(text, pos + |s|)
    ensures Lex(text, pos) == Some(State(Token(IntegerLiteral, s), pos + |s|))
  {
    hide FindToken, SkipComments, RunEnd;
    forall i: nat | i < |s|
      ensures IsAlnum(text[pos + i]) && text[pos + i] == s[i]
    {
      CharAt(text, pos, s, i);
    }
    assert text[pos + 0] == s[0];
    NoSymbol(text, pos);
    forall i | pos <= i < pos + |s|
      ensures IsAlnum(text[i])
    {
      var j: nat := i - pos;
      assert IsAlnum(text[pos + j]);
    }
    RunOf(text, pos, |s|, false);
  }

  lemma LexNumber(text: string, pos: nat, n: nat)
    requires StartsWith(text, pos, ToString(n)) && EndsAt(text, pos + |ToString(n)|)
    ensures Lex(text, pos) == Some(State(Token(IntegerLiteral, ToString(n)), pos + |ToString(n)|))
  {
    hide Lex, ToString;
    ToStringDigits(n);
    LexLiteral(text, pos, ToString(n));
  }

  predicate IsWord(s: string) { s != "" && IsAlpha(s[0]) && forall i | 0 <= i < |s| :: IsWordChar(s[i]) }

  lemma LexWord(text: string, pos: nat, s: string)
    requires IsWord(s) && StartsWith(text, pos, s) && EndsAt(text, pos + |s|)
    ensures Lex(text, pos) == Some(State(Token(WordKind(s), s), pos + |s|))
  {
    hide FindToken, SkipComments, RunEnd;
    forall i: nat | i < |s|
      ensures IsWordChar(text[pos + i]) && text[pos + i] == s[i]
    {
      CharAt(text, pos, s, i);
    }
    assert IsAlpha(text[pos + 0]);
    NoSymbol(text, pos);
    forall i | pos + 1 <= i < pos + |s|
      ensures IsWordChar(text[i])
    {
      var j: nat := i - pos;
      assert IsWordChar(text[pos + j]);
    }
    RunOf(text, pos + 1, |s| - 1, true);
  }

  lemma LexAfterSpace(text: string, pos: nat)
    requires pos < |text| && text[pos] == ' '
    ensures Lex(text, pos) == Lex(text, pos + 1)
  {
    CommentsAfterSpace(text, pos);
    hide SkipComments, FindToken, RunEnd;
  }

  lemma CommentsAfterSpace(text: string, pos: nat)
    requires pos < |text| && text[pos] == ' '
    ensures SkipComments(text, pos) == SkipComments(text, pos + 1)
  {
    assert SkipSpaces(text, pos) == SkipSpaces(text, pos + 1);
    hide SkipSpaces, SkipLine, SkipMultilineComment;
  }

  // ----- parsing printed types -----

  predicate FitsInt(i: int) { 0 <= i < 0x8000_0000 }

  /** Types the spec language can write, with member names that lex as plain identifiers. */
  ghost predicate Printable(t: Type)
    decreases t
  {
    match t
    case BoolType => true
    case BitsType(_) => false
    case IntegerType(_, width) => FitsInt(width)
    case ArrayType(sub, length) => FitsInt(length) && Printable(sub)
    case StructType(members) =>
      forall i | 0 <= i < |members| ::
        IsWord(members[i].name) && WordKind(members[i].name) == Identifier && Printable(members[i].ty)
  }

  /** The innermost element type. */
  ghost function Leaf(t: Type): (l: Type) { if t.ArrayType? then Leaf(t.sub) else t }

  ghost function Dimensions(t: Type): (ds: seq<int>) {
    if t.ArrayType? then [t.length] + Dimensions(t.sub) else []
  }

  /** Arrays of arrays, the first dimension outermost. */
  ghost function Wrap(leaf: Type, ds: seq<int>): (t: Type) {
    if ds == [] then leaf else ArrayType(Wrap(leaf, ds[1..]), ds[0])
  }

  ghost function PrintDimensions(ds: seq<int>): (s: string) {
    if ds == [] then "" else "[" + IntToString(ds[0]) + "]" + PrintDimensions(ds[1..])
  }

  lemma {:induction false} LeafAndDimensions(t: Type)
    ensures Wrap(Leaf(t), Dimensions(t)) == t && !Leaf(t).ArrayType?
    ensures Printable(t) ==> Printable(Leaf(t)) && forall d | d in Dimensions(t) :: FitsInt(d)
    decreases t
  {
    if t.ArrayType? {
      LeafAndDimensions(t.sub);
      assert Dimensions(t)[1..] == Dimensions(t.sub);
    }
  }

  lemma {:induction false} PrintedForm(t: Type, out: string)
    ensures PrintOnto(t, out) == PrintOnto(Leaf(t), "") + out + PrintDimensions(Dimensions(t))
    decreases t
  {
    if t.ArrayType? {
      var dimension := "[" + IntToString(t.length) + "]";
      PrintedForm(t.sub, out + dimension);
      assert Dimensions(t)[1..] == Dimensions(t.sub);
      hide PrintOnto, IntToString;
      Regroup(PrintOnto(Leaf(t), ""), out, dimension, PrintDimensions(Dimensions(t.sub)));
      assert PrintDimensions(Dimensions(t)) == dimension + PrintDimensions(Dimensions(t.sub));
      assert PrintOnto(t, out) == PrintOnto(t.sub, out + dimension) by {
        DimensionFirst(t, out);
      }
    } else {
      PrintedLeaf(t, out);
      assert PrintOnto(t, "") + out + "" == PrintOnto(t, "") + out;
    }
  }

  lemma DimensionFirst(t: Type, out: string)
    requires t.ArrayType?
    ensures PrintOnto(t, out) == PrintOnto(t.sub, out + ("[" + IntToString(t.length) + "]"))
  {
    hide IntToString;
    assert out + "[" + IntToString(t.length) + "]" == out + ("[" + IntToString(t.length) + "]");
  }

  lemma PrintedLeaf(t: Type, out: string)
    requires !t.ArrayType?
    ensures PrintOnto(t, out) == PrintOnto(t, "") + out
  {
    hide IntToString, PrintMembers;
    match t
    case BitsType(width) => AppendNothing("bits#" + IntToString(width), out);
    case BoolType => AppendNothing("bool", out);
    case IntegerType(isSigned, width) => AppendNothing((if isSigned then "int" else "uint") + IntToString(width), out);
    case StructType(members) => AppendNothing("{" + PrintMembers(members) + "}", out);
  }

  lemma AppendNothing(a: string, out: string)
    ensures a + "" + out == a + out && a + "" == a
  {
  }

  lemma Regroup(a: string, b: string, c: string, d: string)
    ensures a + (b + c) + d == a + b + (c + d)
  {
  }

  /** s is the state after reading a token from position pos. */
  ghost predicate At(text: string, pos: nat, s: State) {
    pos <= |text| && s.pos <= |text| && Lex(text, pos) == Some(s)
  }

  /** Where a printed type ends: no word goes on, and no dimension follows. */
  ghost predicate TypeEnds(text: string, pos: nat, next: State) {
    EndsAt(text, pos) && At(text, pos, next) && next.tok.kind != BracketLeft
  }

  lemma Parts(text: string, pos: nat, a: string, b: string)
    requires StartsWith(text, pos, a + b)
    ensures StartsWith(text, pos, a) && StartsWith(text, pos + |a|, b)
  {
    var ab := text[pos..pos + |a + b|];
    assert ab[..|a|] == a && ab[|a|..] == b;
    assert text[pos..pos + |a|] == ab[..|a|];
    assert text[pos + |a|..pos + |a| + |b|] == ab[|a|..];
  }

  lemma FittingNumber(i: int)
    requires FitsInt(i)
    ensures IntToString(i) == ToString(i) && ParseInt(IntToString(i)) == Some(Number(false, i)) && ToInt(i) == i
  {
    hide ParseInt, ToString;
    PrintedNumber(i);
  }

  // Parsing from s gives this and ends in next.

  ghost predicate ReadsDimensions(text: string, s: State, sub: Type, t: Type, next: State) {
    s.pos <= |text| && ParseArrayDimensions(text, s, sub) == Ok(t, next)
  }

  ghost predicate ReadsLeaf(text: string, s: State, t: Type, next: State) {
    s.pos <= |text| && ParseScalarOrStruct(text, s) == Ok(t, next)
  }

  ghost predicate ReadsType(text: string, s: State, t: Type, next: State) {
    s.pos <= |text| && ParseType(text, s) == Ok(t, next)
  }

  ghost predicate ReadsMembers(text: string, s: State, before: seq<Member>, after: seq<Member>, next: State) {
    s.pos <= |text| && ParseMembers(text, s, before) == Ok(after, next)
  }

  ghost predicate IsNumeral(s: string, d: int) {
    0 <= d && ParseInt(s) == Some(Number(false, d)) && ToInt(d) == d
  }

  function Symbol(c: char, pos: nat): (s: State)
    requires IsPunctuation(c)
  {
    State(Token(PunctuationKind(c), [c]), pos + 1)
  }

  lemma AtSymbol(text: string, pos: nat, c: char)
    requires pos < |text| && text[pos] == c && IsPunctuation(c)
    ensures At(text, pos, Symbol(c, pos)) && EndsAt(text, pos)
  {
    LexPunctuation(text, pos);
  }

  lemma AtAfterSpace(text: string, pos: nat, s: State)
    requires pos < |text| && text[pos] == ' ' && At(text, pos + 1, s)
    ensures At(text, pos, s)
  {
    LexAfterSpace(text, pos);
  }

  /** accept, when the expected token is there and another can be read after it */
  lemma Accepts(text: string, s: State, kind: Kind, next: State)
    requires s.pos <= |text| && s.tok.kind == kind && At(text, s.pos, next)
    ensures Accept(text, s, kind) == Ok(s.tok.text, next)
  {
    hide Lex;
  }

  /** A printed dimension, and what is behind it. */
  lemma DimensionParts(text: string, pos: nat, d: int, rest: string)
    requires FitsInt(d) && StartsWith(text, pos, "[" + IntToString(d) + "]" + rest)
    ensures var p2 := pos + 1 + |IntToString(d)|;
            && p2 < |text| && text[pos] == '[' && text[p2] == ']' && StartsWith(text, p2 + 1, rest)
            && At(text, pos + 1, State(Token(IntegerLiteral, IntToString(d)), p2))
            && IsNumeral(IntToString(d), d)
  {
    hide Lex, ParseInt;
    var number := IntToString(d);
    FittingNumber(d);
    hide IntToString;
    Parts(text, pos, "[" + number + "]", rest);
    Parts(text, pos, "[" + number, "]");
    Parts(text, pos, "[", number);
    FirstChar(text, pos, "[");
    FirstChar(text, pos + 1 + |number|, "]");
    LexNumber(text, pos + 1, d);
  }

  lemma {:induction false} ParsePrintedDimensions(text: string, pos: nat, ds: seq<int>, sub: Type, next: State)
    returns (s: State)
    requires (forall d | d in ds :: FitsInt(d)) && StartsWith(text, pos, PrintDimensions(ds))
    requires TypeEnds(text, pos + |PrintDimensions(ds)|, next)
    ensures At(text, pos, s) && EndsAt(text, pos) && ReadsDimensions(text, s, sub, Wrap(sub, ds), next)
    decreases |ds|
  {
    hide Lex, IntToString, StartsWith, FitsInt, IsNumeral, ReadsDimensions;
    if ds == [] {
      s := next;
      NoDimension(text, s, sub);
    } else {
      var number, rest := IntToString(ds[0]), ds[1..];
      assert ds[0] in ds && forall d | d in rest :: d in ds;
      DimensionParts(text, pos, ds[0], PrintDimensions(rest));
      var p2 := pos + 1 + |number|;
      assert |PrintDimensions(ds)| == 1 + |number| + 1 + |PrintDimensions(rest)|;
      var inner := ParsePrintedDimensions(text, p2 + 1, rest, sub, next);
      AtSymbol(text, pos, '[');
      AtSymbol(text, p2, ']');
      s := Symbol('[', pos);
      hide At, PrintDimensions;
      OneDimension(text, s, State(Token(IntegerLiteral, number), p2), Symbol(']', p2), inner, ds[0], sub, Wrap(sub, rest), next);
    }
  }

  lemma NoDimension(text: string, s: State, sub: Type)
    requires s.pos <= |text| && s.tok.kind != BracketLeft
    ensures ReadsDimensions(text, s, sub, sub, s)
  {
  }

  lemma OneDimension(text: string, s: State, s1: State, s2: State, s3: State, d: int, sub: Type, inner: Type, next: State)
    requires s.pos <= |text| && s1.pos <= |text| && s2.pos <= |text|
    requires s.tok.kind == BracketLeft && At(text, s.pos, s1) && s1.tok.kind == IntegerLiteral && At(text, s1.pos, s2)
    requires s2.tok.kind == BracketRight && At(text, s2.pos, s3) && IsNumeral(s1.tok.text, d)
    requires ReadsDimensions(text, s3, sub, inner, next)
    ensures ReadsDimensions(text, s, sub, ArrayType(inner, d), next)
  {
    Accepts(text, s, BracketLeft, s1);
    Accepts(text, s1, IntegerLiteral, s2);
    Accepts(text, s2, BracketRight, s3);
    hide Lex, Accept, At, ParseInt, ToInt;
  }

  /** The texts around the type of a printed member. */
  lemma MemberParts(text: string, pos: nat, name: string, printed: string, rest: string)
    requires IsWord(name) && StartsWith(text, pos, name + ": " + printed + "; " + rest)
    ensures var p1 := pos + |name|;
            var p3 := p1 + 2 + |printed|;
            && p3 + 1 < |text| && StartsWith(text, pos, name) && text[p1] == ':' && text[p1 + 1] == ' '
            && StartsWith(text, p1 + 2, printed) && text[p3] == ';' && text[p3 + 1] == ' ' && StartsWith(text, p3 + 2, rest)
  {
    var p1 := pos + |name|;
    var p3 := p1 + 2 + |printed|;
    Parts(text, pos, name + ": " + printed + "; ", rest);
    Parts(text, pos, name + ": " + printed, "; ");
    Parts(text, pos, name + ": ", printed);
    Parts(text, pos, name, ": ");
    hide StartsWith;
    CharAt(text, p1, ": ", 0);
    CharAt(text, p1, ": ", 1);
    CharAt(text, p3, "; ", 0);
    CharAt(text, p3, "; ", 1);
  }

  lemma AtWord(text: string, pos: nat, name: string)
    requires IsWord(name) && StartsWith(text, pos, name) && EndsAt(text, pos + |name|)
    ensures At(text, pos, State(Token(WordKind(name), name), pos + |name|))
  {
    LexWord(text, pos, name);
  }

  lemma IntegerName(isSigned: bool, width: int)
    requires FitsInt(width)
    ensures var name := (if isSigned then "int" else "uint") + IntToString(width);
            && IsWord(name) && WordKind(name) == Identifier && name != "bool"
            && LookupIntegerTypeName(name) == Some(IntegerType(isSigned, width))
  {
    hide ParseInt, LookupIntegerTypeName, IsWord, WordKind;
    FittingNumber(width);
    ToStringDigits(width);
    hide IntToString;
    NameIsWord(if isSigned then "int" else "uint", IntToString(width));
    NameIsFound(isSigned, IntToString(width), width);
  }

  lemma NameIsWord(prefix: string, number: string)
    requires (prefix == "int" || prefix == "uint") && forall i | 0 <= i < |number| :: IsDigit(number[i])
    ensures IsWord(prefix + number) && WordKind(prefix + number) == Identifier && prefix + number != "bool"
  {
    var name := prefix + number;
    assert name[0] == prefix[0] && (name[0] == 'i' || name[0] == 'u');
    forall i | 0 <= i < |name|
      ensures IsWordChar(name[i])
    {
      if i >= |prefix| {
        assert name[i] == number[i - |prefix|];
      } else {
        assert name[i] == prefix[i];
      }
    }
  }

  lemma NameIsFound(isSigned: bool, number: string, width: int)
    requires 0 <= width && ParseInt(number) == Some(Number(false, width)) && ToInt(width) == width
    ensures LookupIntegerTypeName((if isSigned then "int" else "uint") + number) == Some(IntegerType(isSigned, width))
  {
    hide ParseInt, ToInt;
    var prefix := if isSigned then "int" else "uint";
    var name := prefix + number;
    assert name[|prefix|..] == number;
    assert name[0..|prefix|] == prefix;
    if !isSigned {
      assert name[0] == 'u';
      assert name[0..3][0] == 'u';
    }
  }

  lemma {:induction false} ParsePrinted(text: string, pos: nat, t: Type, next: State) returns (s: State)
    requires Printable(t) && StartsWith(text, pos, PrintOnto(t, "")) && TypeEnds(text, pos + |PrintOnto(t, "")|, next)
    ensures At(text, pos, s) && ReadsType(text, s, t, next)
    decreases |PrintOnto(t, "")|, 1
  {
    var leaf, ds := Leaf(t), Dimensions(t);
    LeafAndDimensions(t);
    PrintedForm(t, "");
    hide PrintOnto, Lex, Printable, ReadsLeaf, ReadsDimensions, ReadsType, PrintDimensions, Leaf, Wrap, Dimensions;
    var printed := PrintOnto(leaf, "");
    assert PrintOnto(t, "") == printed + PrintDimensions(ds);
    Parts(text, pos, printed, PrintDimensions(ds));
    var after := ParsePrintedDimensions(text, pos + |printed|, ds, leaf, next);
    s := ParsePrintedLeaf(text, pos, leaf, after);
    LeafThenDimensions(text, s, after, leaf, t, next);
  }

  lemma LeafThenDimensions(text: string, s: State, after: State, leaf: Type, t: Type, next: State)
    requires ReadsLeaf(text, s, leaf, after) && ReadsDimensions(text, after, leaf, t, next)
    ensures ReadsType(text, s, t, next)
  {
    hide ParseScalarOrStruct, ParseArrayDimensions;
  }

  lemma {:induction false} ParsePrintedLeaf(text: string, pos: nat, t: Type, next: State) returns (s: State)
    requires Printable(t) && !t.ArrayType? && StartsWith(text, pos, PrintOnto(t, ""))
    requires EndsAt(text, pos + |PrintOnto(t, "")|) && At(text, pos + |PrintOnto(t, "")|, next)
    ensures At(text, pos, s) && ReadsLeaf(text, s, t, next)
    decreases |PrintOnto(t, "")|, 0
  {
    hide Lex, At, StartsWith, IntToString, EndsAt, ReadsLeaf, ReadsMembers, LookupIntegerTypeName, PrintMembers;
    match t
    case BoolType =>
      assert PrintOnto(t, "") == "bool";
      AtWord(text, pos, "bool");
      s := State(Token(Identifier, "bool"), pos + 4);
      ParseName(text, s, t, next);
    case IntegerType(isSigned, width) =>
      var name := (if isSigned then "int" else "uint") + IntToString(width);
      assert PrintOnto(t, "") == name;
      IntegerName(isSigned, width);
      AtWord(text, pos, name);
      s := State(Token(Identifier, name), pos + |name|);
      WordFits(text, pos, name, next);
      ParseName(text, s, t, next);
    case StructType(members) =>
      var ms := PrintMembers(members);
      StructParts(text, pos, members);
      var close := Symbol('}', pos + 1 + |ms|);
      var first := ParsePrintedMembers(text, pos + 1, members, [], close);
      s := Symbol('{', pos);
      assert [] + members == members;
      ParseStruct(text, s, first, close, members, next);
  }

  lemma WordFits(text: string, pos: nat, name: string, next: State)
    requires At(text, pos + |name|, next)
    ensures pos + |name| <= |text|
  {
    hide Lex;
  }

  lemma ParseName(text: string, s: State, t: Type, next: State)
    requires s.pos <= |text| && s.tok.kind == Identifier && At(text, s.pos, next)
    requires if s.tok.text == "bool" then t == BoolType else LookupIntegerTypeName(s.tok.text) == Some(t)
    ensures ReadsLeaf(text, s, t, next)
  {
    Accepts(text, s, Identifier, next);
    hide Lex, Accept, LookupIntegerTypeName, At;
  }

  lemma StructParts(text: string, pos: nat, members: seq<Member>)
    requires StartsWith(text, pos, PrintOnto(StructType(members), ""))
    ensures |PrintOnto(StructType(members), "")| == |PrintMembers(members)| + 2
    ensures At(text, pos, Symbol('{', pos)) && StartsWith(text, pos + 1, PrintMembers(members) + "}")
    ensures At(text, pos + 1 + |PrintMembers(members)|, Symbol('}', pos + 1 + |PrintMembers(members)|))
    ensures pos + 1 + |PrintMembers(members)| < |text|
  {
    hide PrintMembers;
    var ms := PrintMembers(members);
    assert PrintOnto(StructType(members), "") == "{" + ms + "}" + "";
    hide PrintOnto, At;
    Braces(text, pos, ms);
    AtSymbol(text, pos, '{');
    AtSymbol(text, pos + 1 + |ms|, '}');
  }

  lemma Braces(text: string, pos: nat, ms: string)
    requires StartsWith(text, pos, "{" + ms + "}" + "")
    ensures pos + 1 + |ms| < |text| && text[pos] == '{' && text[pos + 1 + |ms|] == '}' && StartsWith(text, pos + 1, ms + "}")
  {
    assert "{" + ms + "}" + "" == "{" + (ms + "}");
    Parts(text, pos, "{", ms + "}");
    Parts(text, pos + 1, ms, "}");
    FirstChar(text, pos, "{");
    FirstChar(text, pos + 1 + |ms|, "}");
  }

  lemma ParseStruct(text: string, s: State, first: State, close: State, members: seq<Member>, next: State)
    requires s.pos <= |text| && close.pos <= |text|
    requires s.tok.kind == BraceLeft && At(text, s.pos, first) && close.tok.kind == BraceRight && At(text, close.pos, next)
    requires ReadsMembers(text, first, [], members, close)
    ensures ReadsLeaf(text, s, StructType(members), next)
  {
    Accepts(text, s, BraceLeft, first);
    Accepts(text, close, BraceRight, next);
    hide Lex, Accept, At, ParseMembers;
  }

  lemma {:induction false} ParsePrintedMembers(text: string, pos: nat, ms: seq<Member>, acc: seq<Member>, close: State)
    returns (s: State)
    requires Printable(StructType(ms)) && StartsWith(text, pos, PrintMembers(ms) + "}")
    requires close == Symbol('}', pos + |PrintMembers(ms)|) && At(text, pos + |PrintMembers(ms)|, close)
    ensures At(text, pos, s) && ReadsMembers(text, s, acc, acc + ms, close)
    decreases |PrintMembers(ms)|
  {
    hide Lex, At, StartsWith, ReadsMembers, ReadsType, IsWord, WordKind, TypeEnds;
    if ms == [] {
      s := close;
      ClosesMembers(text, pos, s, acc);
      assert acc + ms == acc;
    } else {
      var m, rest := ms[0], ms[1..];
      MembersPrintable(ms);
      MembersPrinted(ms);
      var printed := PrintOnto(m.ty, "");
      var p1 := pos + |m.name|;
      var p3 := p1 + 2 + |printed|;
      hide PrintMembers, PrintOnto, Printable;
      MemberParts(text, pos, m.name, printed, PrintMembers(rest) + "}");
      var after := ParsePrintedMembers(text, p3 + 2, rest, acc + [m], close);
      assert acc + [m] + rest == acc + ms;
      s := ParsePrintedMember(text, pos, m, acc, after, acc + ms, close);
    }
  }

  lemma {:induction false} ParsePrintedMember(text: string, pos: nat, m: Member, acc: seq<Member>, after: State,
                                              all: seq<Member>, close: State)
    returns (s: State)
    requires IsWord(m.name) && WordKind(m.name) == Identifier && Printable(m.ty)
    requires var p1, n := pos + |m.name|, |PrintOnto(m.ty, "")|;
             && p1 + 2 + n + 1 < |text| && StartsWith(text, pos, m.name) && text[p1] == ':' && text[p1 + 1] == ' '
             && StartsWith(text, p1 + 2, PrintOnto(m.ty, "")) && text[p1 + 2 + n] == ';' && text[p1 + 2 + n + 1] == ' '
             && At(text, p1 + 2 + n + 2, after)
    requires ReadsMembers(text, after, acc + [m], all, close)
    ensures At(text, pos, s) && ReadsMembers(text, s, acc, all, close)
    decreases |PrintOnto(m.ty, "")|, 2
  {
    hide Lex, At, StartsWith, ReadsMembers, ReadsType, IsWord, TypeEnds, Printable, PrintOnto;
    var p1 := pos + |m.name|;
    var p3 := p1 + 2 + |PrintOnto(m.ty, "")|;
    AtAfterSpace(text, p3 + 1, after);
    AtSymbol(text, p3, ';');
    TypeEndsAtSymbol(text, p3);
    var ty := ParsePrinted(text, p1 + 2, m.ty, Symbol(';', p3));
    AtAfterSpace(text, p1 + 1, ty);
    AtSymbol(text, p1, ':');
    AtWord(text, pos, m.name);
    s := State(Token(Identifier, m.name), p1);
    ParseOneMember(text, s, Symbol(':', p1), ty, Symbol(';', p3), after, m, acc, all, close);
  }

  lemma TypeEndsAtSymbol(text: string, pos: nat)
    requires pos < |text| && At(text, pos, Symbol(';', pos)) && EndsAt(text, pos)
    ensures TypeEnds(text, pos, Symbol(';', pos))
  {
  }

  lemma ClosesMembers(text: string, pos: nat, s: State, acc: seq<Member>)
    requires At(text, pos, s) && s.tok.kind == BraceRight
    ensures ReadsMembers(text, s, acc, acc, s)
  {
  }

  lemma MembersPrintable(ms: seq<Member>)
    requires Printable(StructType(ms)) && ms != []
    ensures IsWord(ms[0].name) && WordKind(ms[0].name) == Identifier && Printable(ms[0].ty) && Printable(StructType(ms[1..]))
  {
    assert forall i | 0 <= i < |ms| - 1 :: ms[1..][i] == ms[i + 1];
  }

  lemma MembersPrinted(ms: seq<Member>)
    requires ms != []
    ensures PrintMembers(ms) + "}" == ms[0].name + ": " + PrintOnto(ms[0].ty, "") + "; " + (PrintMembers(ms[1..]) + "}")
    ensures |PrintMembers(ms)| == |ms[0].name| + 2 + |PrintOnto(ms[0].ty, "")| + 2 + |PrintMembers(ms[1..])|
  {
    hide PrintOnto;
    var a, b := ms[0].name + ": " + PrintOnto(ms[0].ty, "") + "; ", PrintMembers(ms[1..]);
    assert a + b + "}" == a + (b + "}");
  }

  lemma ParseOneMember(text: string, s: State, s1: State, s2: State, s3: State, s4: State, m: Member,
                       acc: seq<Member>, all: seq<Member>, close: State)
    requires s.pos <= |text| && s1.pos <= |text| && s3.pos <= |text|
    requires s.tok == Token(Identifier, m.name) && At(text, s.pos, s1) && s1.tok.kind == Colon && At(text, s1.pos, s2)
    requires ReadsType(text, s2, m.ty, s3) && s3.tok.kind == Semicolon && At(text, s3.pos, s4)
    requires ReadsMembers(text, s4, acc + [m], all, close)
    ensures ReadsMembers(text, s, acc, all, close)
  {
    Accepts(text, s, Identifier, s1);
    Accepts(text, s1, Colon, s2);
    Accepts(text, s3, Semicolon, s4);
    hide Lex, Accept, At, ParseType;
  }

  lemma AtEnd(text: string)
    ensures TypeEnds(text, |text|, State(Token(End, ""), |text|))
  {
  }

  /** Parsing the printed form of a type gives the type back, and leaves nothing over. */
  lemma RoundTrip(t: Type) returns (s: State)
    requires Printable(t)
    ensures var text := PrintOnto(t, "");
            At(text, 0, s) && ReadsType(text, s, t, State(Token(End, ""), |text|))
  {
    hide PrintOnto, Lex, ReadsType, Printable;
    var text := PrintOnto(t, "");
    assert text[0..|text|] == text;
    AtEnd(text);
    s := ParsePrinted(text, 0, t, State(Token(End, ""), |text|));
  }

  /** Different types print differently. */
  lemma PrintingIsInjective(t: Type, u: Type)
    requires Printable(t) && Printable(u) && PrintOnto(t, "") == PrintOnto(u, "")
    ensures t == u
  {
    hide Lex, PrintOnto, ParseType, Printable;
    var s := RoundTrip(t);
    var s' := RoundTrip(u);
  }

  /** Printing and reading back, as the code does it. */
  method PrintAndParse(t: Type) returns (ok: bool, read: Type)
    requires Printable(t)
    ensures ok && read == t
  {
    hide Lex, PrintOnto, ParseType, Printable;
    var text := TypeToString(t, "");
    var state := new ParseState(text);
    ghost var s := RoundTrip(t);
    ok := state.Next();
    ok, read := DoParseType(state);
  }
}
