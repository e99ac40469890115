/** Values of integer and nested array types: printing them, parsing them, and encoding what was parsed. */
module SpecValueText {
  import opened Basics
  import opened SpecLexer
  import opened SpecTypes
  import opened SpecValues
  import opened Powers
  import opened Shifts

  /** ValueNode and its subclasses */
  datatype ValueNode =
    | IntegerNode(number: Number)
    | BooleanNode(value: bool)
    | ArrayNode(values: seq<ValueNode>)
    | StructNode(members: seq<NamedValue>)

  datatype NamedValue = NamedValue(name: string, value: ValueNode)

  // ----- parse_value -----

  function ParseValue(text: string, s: State): (r: Parsed<ValueNode>)
    requires s.pos <= |text|
    ensures r.Ok? ==> r.state.pos <= |text| && Left(text, r.state) < Left(text, s)
    decreases Left(text, s), 0
  {
    match s.tok.kind
    case BracketLeft =>
      (match Accept(text, s, BracketLeft)
       case Error => Error
       case Ok(_, s1) =>
         // the bracket that closes an empty array is left in place
         if s1.tok.kind == BracketRight then Ok(ArrayNode([]), s1)
         else
           match ParseValue(text, s1)
           case Error => Error
           case Ok(first, s2) =>
             match ParseElements(text, s2, [first])
             case Error => Error
             case Ok(values, s3) =>
               match Accept(text, s3, BracketRight)
               case Error => Error
               case Ok(_, s4) => Ok(ArrayNode(values), s4))
    case BraceLeft =>
      (match Accept(text, s, BraceLeft)
       case Error => Error
       case Ok(_, s1) =>
         match ParseNamedValues(text, s1, [])
         case Error => Error
         case Ok(members, s2) =>
           match Accept(text, s2, BraceRight)
           case Error => Error
           case Ok(_, s3) => Ok(StructNode(members), s3))
    case IntegerLiteral =>
      (match Accept(text, s, IntegerLiteral)
       case Error => Error
       case Ok(number, s1) =>
         match ParseInt(number)
         case None => Error
         case Some(n) => Ok(IntegerNode(n), s1))
    case LTrue =>
      (match Accept(text, s, LTrue)
       case Error => Error
       case Ok(_, s1) => Ok(BooleanNode(true), s1))
    case LFalse =>
      (match Accept(text, s, LFalse)
       case Error => Error
       case Ok(_, s1) => Ok(BooleanNode(false), s1))
    case _ => Error
  }

  /** The loop over the further elements, up to the closing bracket. */
  function ParseElements(text: string, s: State, values: seq<ValueNode>): (r: Parsed<seq<ValueNode>>)
    requires s.pos <= |text|
    ensures r.Ok? ==> r.state.pos <= |text| && Left(text, r.state) <= Left(text, s)
    decreases Left(text, s), 1
  {
    if s.tok.kind == BracketRight then Ok(values, s)
    else
      match Accept(text, s, Comma)
      case Error => Error
      case Ok(_, s1) =>
        match ParseValue(text, s1)
        case Error => Error
        case Ok(v, s2) => ParseElements(text, s2, values + [v])
  }

  function ParseNamedValues(text: string, s: State, members: seq<NamedValue>): (r: Parsed<seq<NamedValue>>)
    requires s.pos <= |text|
    ensures r.Ok? ==> r.state.pos <= |text| && Left(text, r.state) <= Left(text, s)
    decreases Left(text, s), 1
  {
    if s.tok.kind == BraceRight then Ok(members, s)
    else
      match Accept(text, s, Identifier)
      case Error => Error
      case Ok(name, s1) =>
        match Accept(text, s1, Colon)
        case Error => Error
        case Ok(_, s2) =>
          match ParseValue(text, s2)
          case Error => Error
          case Ok(v, s3) =>
            match Accept(text, s3, Semicolon)
            case Error => Error
            case Ok(_, s4) => ParseNamedValues(text, s4, members + [NamedValue(name, v)])
  }

  // ----- parse_value as the code has it -----

  method DoParseValue(state: ParseState) returns (ok: bool, node: ValueNode)
    requires state.cur <= |state.text|
    modifies state
    ensures ok <==> ParseValue(state.text, old(state.Now())).Ok?
    ensures ok ==> ParseValue(state.text, old(state.Now())) == Ok(node, state.Now()) && state.cur <= |state.text|
    decreases Left(state.text, state.Now()), 0
  {
    hide Lex, ParseInt;
    node := BooleanNode(false);
    var text;
    match state.tok.kind
    case BracketLeft =>
      ok, text := DoAccept(state, BracketLeft);
      if !ok { return; }
      ok, node := DoParseArray(state);
    case BraceLeft =>
      ok, text := DoAccept(state, BraceLeft);
      if !ok { return; }
      var members;
      ok, members := DoParseNamedValues(state);
      if !ok { return; }
      ok, text := DoAccept(state, BraceRight);
      node := StructNode(members);
    case IntegerLiteral =>
      ok, text := DoAccept(state, IntegerLiteral);
      if !ok { return; }
      var n := ParseInt(text);
      ok := n.Some?;
      if ok {
        node := IntegerNode(n.value);
      }
    case LTrue =>
      ok, text := DoAccept(state, LTrue);
      node := BooleanNode(true);
    case LFalse =>
      ok, text := DoAccept(state, LFalse);
    case _ =>
      ok := false;
  }

  /** What ParseValue does behind an opening bracket. */
  function AfterBracket(text: string, s: State): (r: Parsed<ValueNode>)
    requires s.pos <= |text|
  {
    if s.tok.kind == BracketRight then Ok(ArrayNode([]), s)
    else
      match ParseValue(text, s)
      case Error => Error
      case Ok(first, s2) =>
        match ParseElements(text, s2, [first])
        case Error => Error
        case Ok(values, s3) =>
          match Accept(text, s3, BracketRight)
          case Error => Error
          case Ok(_, s4) => Ok(ArrayNode(values), s4)
  }

  method DoParseArray(state: ParseState) returns (ok: bool, node: ValueNode)
    requires state.cur <= |state.text|
    modifies state
    ensures ok <==> AfterBracket(state.text, old(state.Now())).Ok?
    ensures ok ==> AfterBracket(state.text, old(state.Now())) == Ok(node, state.Now()) && state.cur <= |state.text|
    decreases Left(state.text, state.Now()), 3
  {
    hide Lex;
    node := ArrayNode([]);
    if state.tok.kind == BracketRight {
      return true, node;
    }
    var v, text;
    ok, v := DoParseValue(state);
    if !ok { return; }
    ghost var s0 := state.Now();
    var values := [v];
    while state.tok.kind != BracketRight
      invariant state.cur <= |state.text| && Left(state.text, state.Now()) <= Left(state.text, s0)
      invariant ParseElements(state.text, state.Now(), values) == ParseElements(state.text, s0, [v])
      decreases Left(state.text, state.Now())
    {
      ok, text := DoAccept(state, Comma);
      if !ok { return; }
      var next;
      ok, next := DoParseValue(state);
      if !ok { return; }
      values := values + [next];
    }
    ok, text := DoAccept(state, BracketRight);
    node := ArrayNode(values);
  }

  method DoParseNamedValues(state: ParseState) returns (ok: bool, members: seq<NamedValue>)
    requires state.cur <= |state.text|
    modifies state
    ensures ok <==> ParseNamedValues(state.text, old(state.Now()), []).Ok?
    ensures ok ==> ParseNamedValues(state.text, old(state.Now()), []) == Ok(members, state.Now()) && state.cur <= |state.text|
    decreases Left(state.text, state.Now()), 3
  {
    hide Lex;
    ghost var s0 := state.Now();
    members := [];
    ok := true;
    var text;
    while state.tok.kind != BraceRight
      invariant ok && state.cur <= |state.text| && Left(state.text, state.Now()) <= Left(state.text, s0)
      invariant ParseNamedValues(state.text, state.Now(), members) == ParseNamedValues(state.text, s0, [])
      decreases Left(state.text, state.Now())
    {
      var name, v;
      ok, name := DoAccept(state, Identifier);
      if !ok { return; }
      ok, text := DoAccept(state, Colon);
      if !ok { return; }
      ok, v := DoParseValue(state);
      if !ok { return; }
      ok, text := DoAccept(state, Semicolon);
      if !ok { return; }
      members := members + [NamedValue(name, v)];
    }
  }

  // ----- integer types and arrays of them -----

  predicate IsIntegerArray(t: Type) {
    match t
    case IntegerType(_, width) => IsWidth(width)
    case ArrayType(sub, length) => 0 < length && IsIntegerArray(sub)
    case _ => false
  }

  function ElementOf(t: Type): (e: Type)
    requires IsIntegerArray(t)
    ensures e.IntegerType? && IsWidth(e.width)
  {
    if t.ArrayType? then ElementOf(t.sub) else t
  }

  /** get_num_elements */
  function Count(t: Type): (n: nat)
    requires IsIntegerArray(t)
  {
    if t.ArrayType? then Times(t.length, Count(t.sub)) else 1
  }

  /** length * count, by repeated addition */
  function Times(length: nat, count: nat): (n: nat) { if length == 0 then 0 else count + Times(length - 1, count) }

  /** The text of an element, given as the number its bytes spell. */
  ghost function PrintElement(t: Type, x: nat): (s: string)
    requires IsIntegerArray(t)
  {
    var e := ElementOf(t);
    if x < Pow2(e.width) then NumberToString(Element(e.isSigned, e.width, x)) else ""
  }

  /** print_dim on the elements xs */
  ghost function PrintValue(t: Type, xs: seq<nat>): (s: string)
    requires IsIntegerArray(t) && |xs| == Count(t)
    decreases t, 1, 0
  {
    if t.IntegerType? then PrintElement(t, xs[0])
    else
      assert t.length > 0;
      "[" + PrintValue(t.sub, xs[..Count(t.sub)]) + PrintRest(t.sub, t.length - 1, xs[Count(t.sub)..]) + "]"
  }

  ghost function PrintRest(sub: Type, n: nat, xs: seq<nat>): (s: string)
    requires IsIntegerArray(sub) && |xs| == Times(n, Count(sub))
    decreases sub, 2, n
  {
    if n == 0 then ""
    else ", " + PrintValue(sub, xs[..Count(sub)]) + PrintRest(sub, n - 1, xs[Count(sub)..])
  }

  /** The tree that parsing the text should give. */
  ghost function NodeOf(t: Type, xs: seq<nat>): (node: ValueNode)
    requires IsIntegerArray(t) && |xs| == Count(t)
    decreases t, 1, 0
  {
    if t.IntegerType? then
      if xs[0] < Pow2(t.width) then IntegerNode(Reread(Element(t.isSigned, t.width, xs[0]))) else BooleanNode(false)
    else
      assert t.length > 0;
      ArrayNode(NodesOf(t.sub, t.length, xs))
  }

  ghost function NodesOf(sub: Type, n: nat, xs: seq<nat>): (nodes: seq<ValueNode>)
    requires IsIntegerArray(sub) && |xs| == Times(n, Count(sub))
    decreases sub, 2, n
  {
    if n == 0 then [] else [NodeOf(sub, xs[..Count(sub)])] + NodesOf(sub, n - 1, xs[Count(sub)..])
  }

  // ----- parsing printed values -----

  ghost predicate ReadsValue(text: string, s: State, node: ValueNode, next: State) {
    s.pos <= |text| && ParseValue(text, s) == Ok(node, next)
  }

  ghost predicate ReadsElements(text: string, s: State, before: seq<ValueNode>, after: seq<ValueNode>, next: State) {
    s.pos <= |text| && ParseElements(text, s, before) == Ok(after, next)
  }

  lemma NoSymbolAtMinus(text: string, pos: nat)
    requires pos + 1 < |text| && text[pos] == '-' && IsDigit(text[pos + 1])
    ensures FindToken(text, pos, 0) == None && SkipComments(text, pos) == Some(pos)
  {
    SpacesEndHere(text, pos);
    forall k | 0 <= k < |TOKENS|
      ensures !StartsWith(text, pos, TOKENS[k].0)
    {
      if StartsWith(text, pos, TOKENS[k].0) {
        FirstChar(text, pos, TOKENS[k].0);
        assert k == 0;
        CharAt(text, pos, "---", 1);
      }
    }
    FindsNone(text, pos, 0);
  }

  lemma LexNegativeLiteral(text: string, pos: nat, digits: string)
    requires IsLiteral(digits) && StartsWith(text, pos, "-" + digits) && EndsAt(text, pos + 1 + |digits|)
    ensures Lex(text, pos) == Some(State(Token(IntegerLiteral, "-" + digits), pos + 1 + |digits|))
  {
    hide FindToken, SkipComments, RunEnd;
    Parts(text, pos, "-", digits);
    FirstChar(text, pos, "-");
    forall i: nat | i < |digits|
      ensures IsAlnum(text[pos + 1 + i]) && text[pos + 1 + i] == digits[i]
    {
      CharAt(text, pos + 1, digits, i);
    }
    assert text[pos + 1 + 0] == digits[0];
    NoSymbolAtMinus(text, pos);
    forall i | pos + 1 <= i < pos + 1 + |digits|
      ensures IsAlnum(text[i])
    {
      var j: nat := i - (pos + 1);
      assert IsAlnum(text[pos + 1 + j]);
    }
    RunOf(text, pos + 1, |digits|, false);
  }

  lemma LexNegative(text: string, pos: nat, m: nat)
    requires StartsWith(text, pos, "-" + ToString(m)) && EndsAt(text, pos + 1 + |ToString(m)|)
    ensures Lex(text, pos) == Some(State(Token(IntegerLiteral, "-" + ToString(m)), pos + 1 + |ToString(m)|))
  {
    hide Lex, ToString;
    ToStringDigits(m);
    LexNegativeLiteral(text, pos, ToString(m));
  }

  lemma AtNumber(text: string, pos: nat, n: Number)
    requires IsWordNumber(n) && StartsWith(text, pos, NumberToString(n)) && EndsAt(text, pos + |NumberToString(n)|)
    ensures At(text, pos, State(Token(IntegerLiteral, NumberToString(n)), pos + |NumberToString(n)|))
  {
    hide Lex, ToString;
    if n.isNeg && n.value >= 0x8000_0000_0000_0000 {
      LexNegative(text, pos, WORD - n.value);
      LexInside(text, pos);
    } else {
      LexNumber(text, pos, n.value);
      LexInside(text, pos);
    }
  }

  lemma LexInside(text: string, pos: nat)
    requires pos <= |text| && Lex(text, pos).Some?
    ensures Lex(text, pos).value.pos <= |text|
  {
  }

  lemma ReadNumber(text: string, s: State, n: Number, next: State)
    requires s.pos <= |text| && s.tok.kind == IntegerLiteral && ParseInt(s.tok.text) == Some(n) && At(text, s.pos, next)
    ensures ReadsValue(text, s, IntegerNode(n), next)
  {
    Accepts(text, s, IntegerLiteral, next);
    hide Lex, Accept, ParseInt, At;
  }

  lemma ReadArray(text: string, s: State, s1: State, s2: State, first: ValueNode, rest: seq<ValueNode>, close: State, next: State)
    requires s.pos <= |text| && s.tok.kind == BracketLeft && At(text, s.pos, s1) && s1.tok.kind != BracketRight
    requires ReadsValue(text, s1, first, s2) && ReadsElements(text, s2, [first], [first] + rest, close)
    requires close.pos <= |text| && close.tok.kind == BracketRight && At(text, close.pos, next)
    ensures ReadsValue(text, s, ArrayNode([first] + rest), next)
  {
    Accepts(text, s, BracketLeft, s1);
    Accepts(text, close, BracketRight, next);
    hide Lex, Accept, At, ParseElements;
  }

  lemma ReadElement(text: string, s: State, s1: State, s2: State, v: ValueNode, before: seq<ValueNode>, after: seq<ValueNode>, next: State)
    requires s.pos <= |text| && s.tok.kind == Comma && At(text, s.pos, s1) && ReadsValue(text, s1, v, s2)
    requires ReadsElements(text, s2, before + [v], after, next)
    ensures ReadsElements(text, s, before, after, next)
  {
    Accepts(text, s, Comma, s1);
    hide Lex, Accept, At, ParseValue;
  }

  lemma ReadNoElement(text: string, s: State, before: seq<ValueNode>)
    requires s.pos <= |text| && s.tok.kind == BracketRight
    ensures ReadsElements(text, s, before, before, s)
  {
  }

  ghost predicate AllFit(t: Type, xs: seq<nat>)
    requires IsIntegerArray(t)
  {
    forall i | 0 <= i < |xs| :: xs[i] < Pow2(ElementOf(t).width)
  }

  lemma FitParts(t: Type, xs: seq<nat>, k: nat)
    requires IsIntegerArray(t) && k <= |xs| && AllFit(t, xs)
    ensures AllFit(t, xs[..k]) && AllFit(t, xs[k..])
  {
    hide Pow2;
  }

  lemma {:induction false} ParsePrintedValue(text: string, pos: nat, t: Type, xs: seq<nat>, next: State) returns (s: State)
    requires IsIntegerArray(t) && |xs| == Count(t) && AllFit(t, xs)
    requires StartsWith(text, pos, PrintValue(t, xs)) && EndsAt(text, pos + |PrintValue(t, xs)|)
    requires At(text, pos + |PrintValue(t, xs)|, next)
    ensures At(text, pos, s) && ReadsValue(text, s, NodeOf(t, xs), next) && s.tok.kind != BracketRight
    decreases t, 1, 0
  {
    hide Lex, At, StartsWith, ReadsValue, ReadsElements, NumberToString, Pow2;
    if t.IntegerType? {
      var n := Element(t.isSigned, t.width, xs[0]);
      assert PrintValue(t, xs) == NumberToString(n);
      ElementRepresentable(t.isSigned, t.width, xs[0]);
      AtNumber(text, pos, n);
      NumberRoundTrip(n);
      s := State(Token(IntegerLiteral, NumberToString(n)), pos + |NumberToString(n)|);
      AtStart(text, pos + |NumberToString(n)|, next);
      ReadNumber(text, s, Reread(n), next);
    } else {
      var c := Count(t.sub);
      var a, r := PrintValue(t.sub, xs[..c]), PrintRest(t.sub, t.length - 1, xs[c..]);
      PrintedArray(t, xs);
      ArrayParts(text, pos, a, r);
      FitParts(t.sub, xs, c);
      hide PrintValue, PrintRest;
      var p1 := pos + 1 + |a|;
      var close := Symbol(']', p1 + |r|);
      var s2 := ParsePrintedRest(text, p1, t.sub, t.length - 1, xs[c..], [NodeOf(t.sub, xs[..c])], close);
      var s1 := ParsePrintedValue(text, pos + 1, t.sub, xs[..c], s2);
      s := Symbol('[', pos);
      ReadArray(text, s, s1, s2, NodeOf(t.sub, xs[..c]), NodesOf(t.sub, t.length - 1, xs[c..]), close, next);
      ArrayNodes(t, xs);
    }
  }

  lemma AtStart(text: string, pos: nat, s: State)
    requires At(text, pos, s)
    ensures pos <= |text| && s.pos <= |text|
  {
    hide Lex;
  }

  lemma ArrayNodes(t: Type, xs: seq<nat>)
    requires IsIntegerArray(t) && t.ArrayType? && |xs| == Count(t)
    ensures Count(t) == Count(t.sub) + Times(t.length - 1, Count(t.sub))
    ensures NodeOf(t, xs)
            == ArrayNode([NodeOf(t.sub, xs[..Count(t.sub)])] + NodesOf(t.sub, t.length - 1, xs[Count(t.sub)..]))
  {
    hide Pow2;
  }

  lemma PrintedArray(t: Type, xs: seq<nat>)
    requires IsIntegerArray(t) && t.ArrayType? && |xs| == Count(t)
    ensures Count(t) == Count(t.sub) + Times(t.length - 1, Count(t.sub))
    ensures PrintValue(t, xs)
            == "[" + PrintValue(t.sub, xs[..Count(t.sub)]) + PrintRest(t.sub, t.length - 1, xs[Count(t.sub)..]) + "]"
  {
  }

  /** The text of an array: brackets, the first element, and the rest. */
  lemma ArrayParts(text: string, pos: nat, a: string, r: string)
    requires StartsWith(text, pos, "[" + a + r + "]")
    ensures var p1 := pos + 1 + |a|;
            && At(text, pos, Symbol('[', pos)) && StartsWith(text, pos + 1, a) && StartsWith(text, p1, r)
            && At(text, p1 + |r|, Symbol(']', p1 + |r|)) && EndsAt(text, p1 + |r|)
  {
    hide At, Lex;
    Parts(text, pos, "[" + a + r, "]");
    Parts(text, pos, "[" + a, r);
    Parts(text, pos, "[", a);
    FirstChar(text, pos, "[");
    FirstChar(text, pos + 1 + |a| + |r|, "]");
    AtSymbol(text, pos, '[');
    AtSymbol(text, pos + 1 + |a| + |r|, ']');
  }

  lemma {:induction false} ParsePrintedRest(text: string, pos: nat, sub: Type, n: nat, xs: seq<nat>, before: seq<ValueNode>, close: State)
    returns (s: State)
    requires IsIntegerArray(sub) && |xs| == Times(n, Count(sub)) && AllFit(sub, xs)
    requires StartsWith(text, pos, PrintRest(sub, n, xs)) && EndsAt(text, pos + |PrintRest(sub, n, xs)|)
    requires close == Symbol(']', pos + |PrintRest(sub, n, xs)|) && At(text, pos + |PrintRest(sub, n, xs)|, close)
    ensures At(text, pos, s) && EndsAt(text, pos) && ReadsElements(text, s, before, before + NodesOf(sub, n, xs), close)
    decreases sub, 2, n
  {
    hide Lex, StartsWith, ReadsValue, ReadsElements, Pow2, PrintValue, PrintRest, At, NodeOf, NodesOf, Times, AllFit, ElementOf;
    if n == 0 {
      s := close;
      NothingPrinted(sub, xs, before);
      AtStart(text, pos, close);
      ReadNoElement(text, s, before);
    } else {
      var c := Count(sub);
      PrintedRest(sub, n, xs);
      var a, r := PrintValue(sub, xs[..c]), PrintRest(sub, n - 1, xs[c..]);
      RestParts(text, pos, a, r);
      FitParts(sub, xs, c);
      NextNode(sub, n, xs, before);
      hide Count;
      var p1 := pos + 2 + |a|;
      var v := NodeOf(sub, xs[..c]);
      var s2 := ParsePrintedRest(text, p1, sub, n - 1, xs[c..], before + [v], close);
      var s1 := ParsePrintedValue(text, pos + 2, sub, xs[..c], s2);
      AtAfterSpace(text, pos + 1, s1);
      s := Symbol(',', pos);
      ReadElement(text, s, s1, s2, v, before, before + NodesOf(sub, n, xs), close);
    }
  }

  lemma NothingPrinted(sub: Type, xs: seq<nat>, before: seq<ValueNode>)
    requires IsIntegerArray(sub) && |xs| == Times(0, Count(sub))
    ensures PrintRest(sub, 0, xs) == "" && before + NodesOf(sub, 0, xs) == before
  {
  }

  lemma NextNode(sub: Type, n: nat, xs: seq<nat>, before: seq<ValueNode>)
    requires IsIntegerArray(sub) && 0 < n && |xs| == Times(n, Count(sub))
    ensures Count(sub) <= |xs| && |xs[Count(sub)..]| == Times(n - 1, Count(sub))
    ensures before + [NodeOf(sub, xs[..Count(sub)])] + NodesOf(sub, n - 1, xs[Count(sub)..]) == before + NodesOf(sub, n, xs)
  {
    FirstAndRest(sub, n, xs);
    hide NodeOf, NodesOf, Count, Times, IsIntegerArray;
    var nodes := NodesOf(sub, n, xs);
    assert nodes == [nodes[0]] + nodes[1..];
    InsertedFirst(before, nodes[0], nodes[1..]);
  }

  lemma InsertedFirst<T>(before: seq<T>, v: T, rest: seq<T>)
    ensures before + [v] + rest == before + ([v] + rest)
  {
  }

  lemma PrintedRest(sub: Type, n: nat, xs: seq<nat>)
    requires IsIntegerArray(sub) && 0 < n && |xs| == Times(n, Count(sub))
    ensures Count(sub) <= |xs| && |xs[Count(sub)..]| == Times(n - 1, Count(sub))
    ensures var a, r := PrintValue(sub, xs[..Count(sub)]), PrintRest(sub, n - 1, xs[Count(sub)..]);
            PrintRest(sub, n, xs) == ", " + a + r && |PrintRest(sub, n, xs)| == 2 + |a| + |r|
  {
  }

  lemma RestParts(text: string, pos: nat, a: string, r: string)
    requires StartsWith(text, pos, ", " + a + r)
    ensures At(text, pos, Symbol(',', pos)) && EndsAt(text, pos) && pos + 1 < |text| && text[pos + 1] == ' '
    ensures StartsWith(text, pos + 2, a) && StartsWith(text, pos + 2 + |a|, r)
  {
    hide At, Lex;
    Parts(text, pos, ", " + a, r);
    Parts(text, pos, ", ", a);
    CharAt(text, pos, ", ", 0);
    CharAt(text, pos, ", ", 1);
    AtSymbol(text, pos, ',');
  }

  // ----- encoding parsed values -----

  /** to_value; None stands for its exceptions. */
  ghost function ToValue(node: ValueNode, t: Type): (bytes: Option<Bytes>)
    requires IsIntegerArray(t)
    decreases node
  {
    match node
    case IntegerNode(n) =>
      if t.IntegerType? && IsRepresentable(t.isSigned, t.width, n) then Some(BytesOf(n.value, t.width / 8)) else None
    case ArrayNode(values) =>
      if t.ArrayType? && t.length == |values| then ToValues(values, t.sub) else None
    case _ => None
  }

  ghost function ToValues(values: seq<ValueNode>, t: Type): (bytes: Option<Bytes>)
    requires IsIntegerArray(t)
    decreases values
  {
    if values == [] then Some([])
    else
      var first, rest := ToValue(values[0], t), ToValues(values[1..], t);
      if first.Some? && rest.Some? then Some(first.value + rest.value) else None
  }

  /** RawValueWriter, for whole bytes: the bytes are appended to what was written. */
  method Encode(node: ValueNode, t: Type, written: Bytes) returns (ok: bool, bytes: Bytes)
    requires IsIntegerArray(t)
    ensures ok <==> ToValue(node, t).Some?
    ensures ok ==> bytes == written + ToValue(node, t).value
    decreases node
  {
    bytes := written;
    match node
    case IntegerNode(n) =>
      ok := t.IntegerType? && IsRepresentable(t.isSigned, t.width, n);
      if ok {
        bytes := WriteBytes(n.value, t.width / 8, written);
      }
    case ArrayNode(values) =>
      ok := t.ArrayType? && t.length == |values|;
      if ok {
        ok, bytes := EncodeAll(values, t.sub, written);
      }
    case _ =>
      ok := false;
  }

  method EncodeAll(values: seq<ValueNode>, t: Type, written: Bytes) returns (ok: bool, bytes: Bytes)
    requires IsIntegerArray(t)
    ensures ok <==> ToValues(values, t).Some?
    ensures ok ==> bytes == written + ToValues(values, t).value
    decreases values
  {
    bytes := written;
    for i := 0 to |values|
      invariant ToValues(values, t).Some? <==> ToValues(values[i..], t).Some?
      invariant ToValues(values, t).Some? ==> bytes + ToValues(values[i..], t).value == written + ToValues(values, t).value
    {
      assert values[i..][1..] == values[i + 1..] && values[i..][0] == values[i];
      ok, bytes := Encode(values[i], t, bytes);
      if !ok { return; }
    }
    assert values[|values|..] == [];
    ok := true;
  }

  method WriteBytes(v: nat, n: nat, written: Bytes) returns (bytes: Bytes)
    ensures bytes == written + BytesOf(v, n)
  {
    bytes := written;
    for i := 0 to n
      invariant bytes == written + BytesOf(v, n)[..i]
    {
      bytes := bytes + [Low(Shr(v, 8 * i), 8)];
    }
  }

  ghost predicate AllSurvive(t: Type, xs: seq<nat>)
    requires IsIntegerArray(t)
  {
    forall i | 0 <= i < |xs| :: Survives(ElementOf(t).isSigned, ElementOf(t).width, xs[i])
  }

  /** The whole bytes of each element, one element after the other. */
  ghost function Written(size: nat, xs: seq<nat>): (bytes: Bytes) {
    if xs == [] then [] else BytesOf(xs[0], size) + Written(size, xs[1..])
  }

  lemma {:induction false} WrittenAppend(size: nat, a: seq<nat>, b: seq<nat>)
    ensures Written(size, a + b) == Written(size, a) + Written(size, b)
    decreases |a|
  {
    hide BytesOf;
    if a == [] {
      assert a + b == b;
    } else {
      assert (a + b)[1..] == a[1..] + b;
      WrittenAppend(size, a[1..], b);
    }
  }

  lemma {:induction false} EncodeNode(t: Type, xs: seq<nat>)
    requires IsIntegerArray(t) && |xs| == Count(t) && AllFit(t, xs)
    ensures ToValue(NodeOf(t, xs), t) == EncodedAs(t, xs)
    decreases t, 1, 0
  {
    if t.IntegerType? {
      EncodeInteger(t, xs[0]);
      hide Pow2, BytesOf, Survives, ToValue, Reread, Element;
      assert xs == [xs[0]] && xs[0] < Pow2(ElementOf(t).width);
      assert NodeOf(t, xs) == IntegerNode(Reread(Element(t.isSigned, t.width, xs[0])));
      assert AllSurvive(t, xs) <==> Survives(t.isSigned, t.width, xs[0]);
      OneWritten(t.width / 8, xs);
    } else {
      hide Pow2, BytesOf, Survives, NodeOf;
      EncodeNodes(t.sub, t.length, xs);
      NodeCount(t.sub, t.length, xs);
      ArrayIsNodes(t, xs);
      SameElement(t, xs);
    }
  }

  lemma ArrayIsNodes(t: Type, xs: seq<nat>)
    requires IsIntegerArray(t) && t.ArrayType? && |xs| == Count(t)
    ensures |xs| == Times(t.length, Count(t.sub)) && NodeOf(t, xs) == ArrayNode(NodesOf(t.sub, t.length, xs))
  {
    hide Pow2, NodesOf;
  }

  lemma SameElement(t: Type, xs: seq<nat>)
    requires IsIntegerArray(t) && t.ArrayType?
    ensures ElementOf(t) == ElementOf(t.sub) && (AllSurvive(t, xs) <==> AllSurvive(t.sub, xs))
  {
    hide Survives;
  }

  lemma EncodeInteger(t: Type, x: nat)
    requires IsIntegerArray(t) && t.IntegerType? && x < Pow2(t.width)
    ensures ToValue(IntegerNode(Reread(Element(t.isSigned, t.width, x))), t)
            == if Survives(t.isSigned, t.width, x) then Some(BytesOf(x, t.width / 8)) else None
  {
    hide Pow2, BytesOf, IsRepresentable, Survives;
    ElementBytes(t.isSigned, t.width, x);
    ElementRepresentable(t.isSigned, t.width, x);
  }

  lemma {:induction false} NodeCount(sub: Type, n: nat, xs: seq<nat>)
    requires IsIntegerArray(sub) && |xs| == Times(n, Count(sub))
    ensures |NodesOf(sub, n, xs)| == n
    decreases n
  {
    hide NodeOf;
    if n > 0 {
      NodeCount(sub, n - 1, xs[Count(sub)..]);
    }
  }

  lemma {:induction false} EncodeNodes(sub: Type, n: nat, xs: seq<nat>)
    requires IsIntegerArray(sub) && |xs| == Times(n, Count(sub)) && AllFit(sub, xs)
    ensures ToValues(NodesOf(sub, n, xs), sub) == EncodedAs(sub, xs)
    decreases sub, 2, n
  {
    hide NodeOf, ToValue, ToValues, Survives, BytesOf, Pow2, AllFit, AllSurvive, EncodedAs, Written, ElementOf;
    if n == 0 {
      NothingEncoded(sub, xs);
    } else {
      var c := Count(sub);
      FirstAndRest(sub, n, xs);
      FitParts(sub, xs, c);
      var a, b := xs[..c], xs[c..];
      EncodeNode(sub, a);
      EncodeNodes(sub, n - 1, b);
      SurviveParts(sub, xs, c);
      assert xs == a + b;
      hide NodesOf, Count, Times;
      EncodeSplit(NodesOf(sub, n, xs), sub, a, b);
    }
  }

  ghost function EncodedAs(t: Type, xs: seq<nat>): (bytes: Option<Bytes>)
    requires IsIntegerArray(t)
  {
    if AllSurvive(t, xs) then Some(Written(ElementOf(t).width / 8, xs)) else None
  }

  lemma EncodeSplit(values: seq<ValueNode>, t: Type, a: seq<nat>, b: seq<nat>)
    requires IsIntegerArray(t) && values != []
    requires ToValue(values[0], t) == EncodedAs(t, a) && ToValues(values[1..], t) == EncodedAs(t, b)
    requires AllSurvive(t, a + b) <==> AllSurvive(t, a) && AllSurvive(t, b)
    ensures ToValues(values, t) == EncodedAs(t, a + b)
  {
    hide ToValue, ToValues, Written, AllSurvive;
    EncodeFirst(values, t);
    WrittenAppend(ElementOf(t).width / 8, a, b);
  }

  lemma OneWritten(size: nat, xs: seq<nat>)
    requires |xs| == 1
    ensures Written(size, xs) == BytesOf(xs[0], size)
  {
    hide BytesOf;
    assert Written(size, xs[1..]) == [];
  }

  lemma NothingEncoded(sub: Type, xs: seq<nat>)
    requires IsIntegerArray(sub) && xs == []
    ensures ToValues([], sub) == Some([]) == EncodedAs(sub, xs)
  {
  }

  lemma EncodeFirst(values: seq<ValueNode>, t: Type)
    requires IsIntegerArray(t) && values != []
    ensures var first, rest := ToValue(values[0], t), ToValues(values[1..], t);
            ToValues(values, t) == if first.Some? && rest.Some? then Some(first.value + rest.value) else None
  {
    hide ToValue;
  }

  lemma SurviveParts(t: Type, xs: seq<nat>, c: nat)
    requires IsIntegerArray(t) && c <= |xs|
    ensures AllSurvive(t, xs) <==> AllSurvive(t, xs[..c]) && AllSurvive(t, xs[c..])
  {
    hide Survives;
    var a, b := xs[..c], xs[c..];
    assert forall i | 0 <= i < |a| :: a[i] == xs[i];
    assert forall i | 0 <= i < |b| :: b[i] == xs[c + i];
    if AllSurvive(t, a) && AllSurvive(t, b) {
      forall i | 0 <= i < |xs|
        ensures Survives(ElementOf(t).isSigned, ElementOf(t).width, xs[i])
      {
        assert if i < c then xs[i] == a[i] else xs[i] == b[i - c];
      }
    }
  }

  lemma FirstAndRest(sub: Type, n: nat, xs: seq<nat>)
    requires IsIntegerArray(sub) && 0 < n && |xs| == Times(n, Count(sub))
    ensures var nodes := NodesOf(sub, n, xs);
            Count(sub) <= |xs| && |xs[Count(sub)..]| == Times(n - 1, Count(sub))
            && nodes != [] && nodes[0] == NodeOf(sub, xs[..Count(sub)]) && nodes[1..] == NodesOf(sub, n - 1, xs[Count(sub)..])
  {
    hide NodeOf;
  }

  /**
   Printing a value, parsing the text and encoding the result gives the whole bytes of its elements,
   unless an element is in the upper half of uint64: then the text cannot be encoded again.
   */
  lemma ValueRoundTrip(t: Type, xs: seq<nat>) returns (s: State, node: ValueNode)
    requires IsIntegerArray(t) && |xs| == Count(t) && AllFit(t, xs)
    ensures var text := PrintValue(t, xs);
            At(text, 0, s) && ReadsValue(text, s, node, State(Token(End, ""), |text|))
    ensures ToValue(node, t) == if AllSurvive(t, xs) then Some(Written(ElementOf(t).width / 8, xs)) else None
  {
    hide PrintValue, NodeOf, ToValue, Lex, ReadsValue, At, AllFit;
    var text := PrintValue(t, xs);
    assert text[0..|text|] == text;
    AtEnd(text);
    node := NodeOf(t, xs);
    s := ParsePrintedValue(text, 0, t, xs, State(Token(End, ""), |text|));
    EncodeNode(t, xs);
  }
}
