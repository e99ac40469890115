/** Values of all kinds, as trees: writing one and parsing the text gives the tree back. */
module SpecTrees {
  import opened Basics
  import opened SpecLexer
  import opened SpecTypes
  import opened SpecValues
  import opened SpecValueText
  import opened SpecTokens

  ghost function Show(node: ValueNode): (s: string)
    decreases node, 1
  {
    match node
    case IntegerNode(n) => NumberToString(n)
    case BooleanNode(value) => if value then "true" else "false"
    case ArrayNode(values) => if values == [] then "" else "[" + Show(values[0]) + ShowRest(values[1..]) + "]"
    case StructNode(members) => "{" + ShowMembers(members) + "}"
  }

  ghost function ShowRest(values: seq<ValueNode>): (s: string)
    decreases values, 0
  {
    if values == [] then "" else ", " + Show(values[0]) + ShowRest(values[1..])
  }

  ghost function ShowMembers(ms: seq<NamedValue>): (s: string)
    decreases ms, 0
  {
    if ms == [] then "" else ms[0].name + ": " + Show(ms[0].value) + "; " + ShowMembers(ms[1..])
  }

  /** Numbers as parse_int makes them, arrays with elements, and plain names. */
  ghost predicate Showable(node: ValueNode)
    decreases node
  {
    match node
    case IntegerNode(n) => IsWordNumber(n) && Reread(n) == n
    case BooleanNode(_) => true
    case ArrayNode(values) => values != [] && AllShowable(values)
    case StructNode(members) => AllMembersShowable(members)
  }

  ghost predicate AllShowable(values: seq<ValueNode>)
    decreases values
  {
    forall i | 0 <= i < |values| :: Showable(values[i])
  }

  ghost predicate AllMembersShowable(ms: seq<NamedValue>)
    decreases ms
  {
    forall i | 0 <= i < |ms| :: IsWord(ms[i].name) && WordKind(ms[i].name) == Identifier && Showable(ms[i].value)
  }

  ghost predicate ReadsNamed(text: string, s: State, before: seq<NamedValue>, after: seq<NamedValue>, next: State) {
    s.pos <= |text| && ParseNamedValues(text, s, before) == Ok(after, next)
  }

  // ----- single steps -----

  lemma ReadStruct(text: string, s: State, first: State, members: seq<NamedValue>, close: State, next: State)
    requires s.pos <= |text| && close.pos <= |text|
    requires s.tok.kind == BraceLeft && At(text, s.pos, first) && close.tok.kind == BraceRight && At(text, close.pos, next)
    requires ReadsNamed(text, first, [], members, close)
    ensures ReadsValue(text, s, StructNode(members), next)
  {
    Accepts(text, s, BraceLeft, first);
    Accepts(text, close, BraceRight, next);
    hide Lex, Accept, At, ParseNamedValues;
  }

  lemma ReadNoMember(text: string, s: State, before: seq<NamedValue>)
    requires s.pos <= |text| && s.tok.kind == BraceRight
    ensures ReadsNamed(text, s, before, before, s)
  {
  }

  lemma ReadMember(text: string, s: State, s1: State, s2: State, s3: State, s4: State, m: NamedValue,
                   before: seq<NamedValue>, after: seq<NamedValue>, close: State)
    requires s.pos <= |text| && s1.pos <= |text| && s3.pos <= |text|
    requires s.tok == Token(Identifier, m.name) && At(text, s.pos, s1) && s1.tok.kind == Colon && At(text, s1.pos, s2)
    requires ReadsValue(text, s2, m.value, s3) && s3.tok.kind == Semicolon && At(text, s3.pos, s4)
    requires ReadsNamed(text, s4, before + [m], after, close)
    ensures ReadsNamed(text, s, before, after, close)
  {
    Accepts(text, s, Identifier, s1);
    Accepts(text, s1, Colon, s2);
    Accepts(text, s3, Semicolon, s4);
    hide Lex, Accept, At, ParseValue;
  }

  lemma AtBoolean(text: string, pos: nat, value: bool)
    requires StartsWith(text, pos, if value then "true" else "false")
    requires EndsAt(text, pos + if value then 4 else 5)
    ensures var word := if value then "true" else "false";
            At(text, pos, State(Token(if value then LTrue else LFalse, word), pos + |word|))
  {
    hide Lex;
    var word := if value then "true" else "false";
    assert IsWord(word);
    AtWord(text, pos, word);
  }

  lemma ShownArray(values: seq<ValueNode>)
    requires values != []
    ensures Show(ArrayNode(values)) == "[" + Show(values[0]) + ShowRest(values[1..]) + "]"
    ensures |Show(ArrayNode(values))| == 2 + |Show(values[0])| + |ShowRest(values[1..])|
  {
  }

  lemma ShownRest(values: seq<ValueNode>)
    requires values != []
    ensures ShowRest(values) == ", " + Show(values[0]) + ShowRest(values[1..])
    ensures |ShowRest(values)| == 2 + |Show(values[0])| + |ShowRest(values[1..])|
  {
  }

  lemma ShownNone()
    ensures ShowRest([]) == "" && ShowMembers([]) == ""
  {
  }

  lemma ShownStruct(members: seq<NamedValue>)
    ensures Show(StructNode(members)) == "{" + ShowMembers(members) + "}"
    ensures |Show(StructNode(members))| == 2 + |ShowMembers(members)|
  {
  }

  lemma ShownMembers(ms: seq<NamedValue>)
    requires ms != []
    ensures ShowMembers(ms) + "}" == ms[0].name + ": " + Show(ms[0].value) + "; " + (ShowMembers(ms[1..]) + "}")
    ensures |ShowMembers(ms)| == |ms[0].name| + 2 + |Show(ms[0].value)| + 2 + |ShowMembers(ms[1..])|
  {
    hide Show;
    var a, b := ms[0].name + ": " + Show(ms[0].value) + "; ", ShowMembers(ms[1..]);
    assert a + b + "}" == a + (b + "}");
  }

  lemma ShowableParts(values: seq<ValueNode>)
    requires AllShowable(values) && values != []
    ensures Showable(values[0]) && AllShowable(values[1..])
  {
    hide Showable;
    assert forall i | 0 <= i < |values| - 1 :: values[1..][i] == values[i + 1];
  }

  lemma MembersShowable(ms: seq<NamedValue>)
    requires AllMembersShowable(ms) && ms != []
    ensures IsWord(ms[0].name) && WordKind(ms[0].name) == Identifier && Showable(ms[0].value) && AllMembersShowable(ms[1..])
  {
    hide Showable, IsWord, WordKind;
    assert forall i | 0 <= i < |ms| - 1 :: ms[1..][i] == ms[i + 1];
  }

  lemma FirstPutBack<T>(before: seq<T>, s: seq<T>)
    requires s != []
    ensures before + [s[0]] + s[1..] == before + s
  {
  }

  lemma FirstAndOthers<T>(s: seq<T>)
    requires s != []
    ensures [s[0]] + s[1..] == s
  {
  }

  // ----- the round trip -----

  lemma {:induction false} ParseShown(text: string, pos: nat, node: ValueNode, next: State) returns (s: State)
    requires Showable(node) && StartsWith(text, pos, Show(node)) && EndsAt(text, pos + |Show(node)|)
    requires At(text, pos + |Show(node)|, next)
    ensures At(text, pos, s) && ReadsValue(text, s, node, next) && s.tok.kind != BracketRight
    decreases |Show(node)|, 1
  {
    hide Lex, At, StartsWith, ReadsValue, ReadsElements, ReadsNamed, NumberToString, EndsAt;
    AtStart(text, pos + |Show(node)|, next);
    match node
    case IntegerNode(n) =>
      AtNumber(text, pos, n);
      NumberRoundTrip(n);
      s := State(Token(IntegerLiteral, NumberToString(n)), pos + |NumberToString(n)|);
      ReadNumber(text, s, n, next);
    case BooleanNode(value) =>
      AtBoolean(text, pos, value);
      var word := if value then "true" else "false";
      s := State(Token(if value then LTrue else LFalse, word), pos + |word|);
      ReadBoolean(text, s, next);
    case ArrayNode(values) => s := ParseShownArray(text, pos, values, next);
    case StructNode(members) => s := ParseShownStruct(text, pos, members, next);
  }

  lemma {:induction false} ParseShownArray(text: string, pos: nat, values: seq<ValueNode>, next: State) returns (s: State)
    requires values != [] && AllShowable(values)
    requires StartsWith(text, pos, Show(ArrayNode(values))) && At(text, pos + |Show(ArrayNode(values))|, next)
    ensures At(text, pos, s) && ReadsValue(text, s, ArrayNode(values), next) && s.tok.kind != BracketRight
    decreases |Show(ArrayNode(values))|, 0
  {
    hide Lex, At, StartsWith, ReadsValue, ReadsElements, Show, ShowRest, Showable, AllShowable, EndsAt;
    ShownArray(values);
    ShowableParts(values);
    var a, r := Show(values[0]), ShowRest(values[1..]);
    var p1 := pos + 1 + |a|;
    ArrayParts(text, pos, a, r);
    var close := Symbol(']', p1 + |r|);
    var s2 := ParseShownRest(text, p1, values[1..], [values[0]], close);
    var s1 := ParseShown(text, pos + 1, values[0], s2);
    s := Symbol('[', pos);
    AtStart(text, p1 + |r|, close);
    AtStart(text, pos, s);
    FirstAndOthers(values);
    ReadArray(text, s, s1, s2, values[0], values[1..], close, next);
  }

  lemma {:induction false} ParseShownRest(text: string, pos: nat, values: seq<ValueNode>, before: seq<ValueNode>, close: State)
    returns (s: State)
    requires AllShowable(values) && StartsWith(text, pos, ShowRest(values)) && EndsAt(text, pos + |ShowRest(values)|)
    requires close == Symbol(']', pos + |ShowRest(values)|) && At(text, pos + |ShowRest(values)|, close)
    ensures At(text, pos, s) && EndsAt(text, pos) && ReadsElements(text, s, before, before + values, close)
    decreases |ShowRest(values)|, 2
  {
    hide Lex, At, StartsWith, ReadsValue, ReadsElements, Show, ShowRest, Showable, AllShowable, EndsAt;
    if values == [] {
      s := close;
      ShownNone();
      AtStart(text, pos, close);
      ReadNoElement(text, s, before);
      assert before + values == before;
    } else {
      ShownRest(values);
      ShowableParts(values);
      var a, r := Show(values[0]), ShowRest(values[1..]);
      RestParts(text, pos, a, r);
      var p1 := pos + 2 + |a|;
      var s2 := ParseShownRest(text, p1, values[1..], before + [values[0]], close);
      var s1 := ParseShown(text, pos + 2, values[0], s2);
      AtAfterSpace(text, pos + 1, s1);
      s := Symbol(',', pos);
      AtStart(text, pos, s);
      FirstPutBack(before, values);
      ReadElement(text, s, s1, s2, values[0], before, before + values, close);
    }
  }

  lemma {:induction false} ParseShownStruct(text: string, pos: nat, members: seq<NamedValue>, next: State) returns (s: State)
    requires AllMembersShowable(members)
    requires StartsWith(text, pos, Show(StructNode(members))) && At(text, pos + |Show(StructNode(members))|, next)
    ensures At(text, pos, s) && ReadsValue(text, s, StructNode(members), next) && s.tok.kind != BracketRight
    decreases |Show(StructNode(members))|, 0
  {
    ShownStruct(members);
    hide Lex, At, StartsWith, ReadsValue, ReadsNamed, Show, ShowMembers, AllMembersShowable;
    var ms := ShowMembers(members);
    assert "{" + ms + "}" + "" == "{" + ms + "}";
    Braces(text, pos, ms);
    AtSymbol(text, pos, '{');
    AtSymbol(text, pos + 1 + |ms|, '}');
    var close := Symbol('}', pos + 1 + |ms|);
    var first := ParseShownMembers(text, pos + 1, members, [], close);
    s := Symbol('{', pos);
    AtStart(text, pos, s);
    AtStart(text, pos + 1 + |ms|, close);
    assert [] + members == members;
    ReadStruct(text, s, first, members, close, next);
  }

  lemma {:induction false} ParseShownMembers(text: string, pos: nat, ms: seq<NamedValue>, before: seq<NamedValue>, close: State)
    returns (s: State)
    requires AllMembersShowable(ms) && StartsWith(text, pos, ShowMembers(ms) + "}")
    requires close == Symbol('}', pos + |ShowMembers(ms)|) && At(text, pos + |ShowMembers(ms)|, close)
    ensures At(text, pos, s) && ReadsNamed(text, s, before, before + ms, close)
    decreases |ShowMembers(ms)|, 2
  {
    hide Lex, At, StartsWith, ReadsValue, ReadsNamed, Show, ShowMembers, Showable, AllMembersShowable, IsWord, WordKind;
    if ms == [] {
      s := close;
      ShownNone();
      AtStart(text, pos, close);
      ReadNoMember(text, s, before);
      assert before + ms == before;
    } else {
      ShownMembers(ms);
      MembersShowable(ms);
      var m, rest := ms[0], ms[1..];
      var shown := Show(m.value);
      MemberParts(text, pos, m.name, shown, ShowMembers(rest) + "}");
      var p3 := pos + |m.name| + 2 + |shown|;
      var after := ParseShownMembers(text, p3 + 2, rest, before + [m], close);
      FirstPutBack(before, ms);
      s := ParseShownMember(text, pos, m, before, after, before + ms, close);
    }
  }

  lemma {:induction false} ParseShownMember(text: string, pos: nat, m: NamedValue, before: seq<NamedValue>, after: State,
                                            all: seq<NamedValue>, close: State)
    returns (s: State)
    requires IsWord(m.name) && WordKind(m.name) == Identifier && Showable(m.value)
    requires var p1, n := pos + |m.name|, |Show(m.value)|;
             && p1 + 2 + n + 1 < |text| && StartsWith(text, pos, m.name) && text[p1] == ':' && text[p1 + 1] == ' '
             && StartsWith(text, p1 + 2, Show(m.value)) && text[p1 + 2 + n] == ';' && text[p1 + 2 + n + 1] == ' '
             && At(text, p1 + 2 + n + 2, after)
    requires ReadsNamed(text, after, before + [m], all, close)
    ensures At(text, pos, s) && ReadsNamed(text, s, before, all, close)
    decreases |Show(m.value)|, 4
  {
    hide Lex, At, StartsWith, ReadsValue, ReadsNamed, IsWord, Showable, Show, EndsAt;
    var p1 := pos + |m.name|;
    var p3 := p1 + 2 + |Show(m.value)|;
    AtAfterSpace(text, p3 + 1, after);
    AtSymbol(text, p3, ';');
    var value := ParseShown(text, p1 + 2, m.value, Symbol(';', p3));
    AtAfterSpace(text, p1 + 1, value);
    AtSymbol(text, p1, ':');
    AtWord(text, pos, m.name);
    s := State(Token(Identifier, m.name), p1);
    ReadMember(text, s, Symbol(':', p1), value, Symbol(';', p3), after, m, before, all, close);
  }

  /** Writing a value of any kind and parsing the text gives the value, and leaves nothing over. */
  lemma TreeRoundTrip(node: ValueNode) returns (s: State)
    requires Showable(node)
    ensures var text := Show(node);
            At(text, 0, s) && ReadsValue(text, s, node, State(Token(End, ""), |text|))
  {
    hide Show, Lex, ReadsValue, Showable;
    var text := Show(node);
    assert text[0..|text|] == text;
    AtEnd(text);
    s := ParseShown(text, 0, node, State(Token(End, ""), |text|));
  }

  /** The bracket that closes an empty array is left over: it stays the current token. */
  lemma EmptyArrayKeepsBracket() returns (s: State, next: State)
    ensures At("[]", 0, s) && ReadsValue("[]", s, ArrayNode([]), next) && next.tok.kind == BracketRight
  {
    var text := "[]";
    AtSymbol(text, 0, '[');
    AtSymbol(text, 1, ']');
    s, next := Symbol('[', 0), Symbol(']', 1);
    Accepts(text, s, BracketLeft, next);
    hide Lex, Accept;
  }
}
