/** The tokens of the spec language: what each symbol and word stands for, and what is skipped between them. */
module SpecTokens {
  import opened Basics
  import opened SpecLexer
  import opened SpecTypes
  import opened SpecValueText

  /** The whole text is one token. */
  ghost predicate IsToken(text: string, kind: Kind) { Lex(text, 0) == Some(State(Token(kind, text), |text|)) }

  lemma SymbolAt(text: string, j: nat, kind: Kind)
    requires j < |TOKENS| && TOKENS[j] == (text, kind) && text != ""
    requires !IsSpace(text[0]) && text[0] != '/'
    requires forall k | 0 <= k < j :: !StartsWith(text, 0, TOKENS[k].0)
    ensures IsToken(text, kind)
  {
    hide FindToken;
    SpacesEndHere(text, 0);
    assert text[0..0 + |text|] == text;
    FindsEntry(text, 0, 0, j);
  }

  lemma TooLong(text: string, s: string)
    requires |s| > |text|
    ensures !StartsWith(text, 0, s)
  {
  }

  lemma LongSymbols()
    ensures IsToken("---", Separator) && IsToken("||", LOr) && IsToken("&&", LAnd)
    ensures IsToken("!=", Ne) && IsToken("==", Eq) && IsToken("=", Assign)
  {
    hide IsToken, StartsWith;
    SymbolAt("---", 0, Separator);
    TooLong("||", "---");
    SymbolAt("||", 1, LOr);
    TooLong("&&", "---");
    FirstDiffers("&&", "||");
    SymbolAt("&&", 2, LAnd);
    TooLong("!=", "---");
    FirstDiffers("!=", "||");
    FirstDiffers("!=", "&&");
    SymbolAt("!=", 3, Ne);
    TooLong("==", "---");
    FirstDiffers("==", "||");
    FirstDiffers("==", "&&");
    FirstDiffers("==", "!=");
    SymbolAt("==", 4, Eq);
    TooLong("=", "---");
    TooLong("=", "||");
    TooLong("=", "&&");
    TooLong("=", "!=");
    TooLong("=", "==");
    SymbolAt("=", 5, Assign);
  }

  lemma FirstDiffers(text: string, s: string)
    requires text != "" && s != "" && text[0] != s[0]
    ensures !StartsWith(text, 0, s)
  {
    if StartsWith(text, 0, s) {
      FirstChar(text, 0, s);
    }
  }

  /** The brackets and separators */
  lemma ShortSymbols()
    ensures IsToken("{", BraceLeft) && IsToken("}", BraceRight) && IsToken("[", BracketLeft) && IsToken("]", BracketRight)
    ensures IsToken(":", Colon) && IsToken(",", Comma) && IsToken(";", Semicolon)
  {
    hide Lex;
    OneChar("{");
    OneChar("}");
    OneChar("[");
    OneChar("]");
    OneChar(":");
    OneChar(",");
    OneChar(";");
  }

  lemma OneChar(text: string)
    requires |text| == 1 && IsPunctuation(text[0])
    ensures IsToken(text, PunctuationKind(text[0]))
  {
    hide Lex;
    LexPunctuation(text, 0);
    assert text == [text[0]];
  }

  /** The words with a meaning of their own; all other words are identifiers. */
  lemma Words(word: string)
    requires IsWord(word)
    ensures word == "global" ==> IsToken(word, Global)
    ensures word == "spec" ==> IsToken(word, Spec)
    ensures word == "print" ==> IsToken(word, PrintWord)
    ensures word == "true" ==> IsToken(word, LTrue)
    ensures word == "false" ==> IsToken(word, LFalse)
    ensures word != "global" && word != "spec" && word != "print" && word != "true" && word != "false" ==>
              IsToken(word, Identifier)
  {
    hide Lex, IsWord;
    assert word[0..|word|] == word;
    LexWord(word, 0, word);
  }

  /** The Boolean words are values. */
  lemma BooleanWords(value: bool) returns (s: State)
    ensures var text := if value then "true" else "false";
            At(text, 0, s) && ReadsValue(text, s, BooleanNode(value), State(Token(End, ""), |text|))
  {
    var text := if value then "true" else "false";
    assert IsWord(text);
    Words(text);
    AtEnd(text);
    s := State(Token(if value then LTrue else LFalse, text), |text|);
    hide Lex;
    ReadBoolean(text, s, State(Token(End, ""), |text|));
  }

  lemma ReadBoolean(text: string, s: State, next: State)
    requires s.pos <= |text| && (s.tok.kind == LTrue || s.tok.kind == LFalse) && At(text, s.pos, next)
    ensures ReadsValue(text, s, BooleanNode(s.tok.kind == LTrue), next)
  {
    Accepts(text, s, s.tok.kind, next);
    hide Lex, Accept, At;
  }

  /** parse_value on these words, as the code does it. */
  method ParseBoolean(value: bool) returns (ok: bool, node: ValueNode)
    ensures ok && node == BooleanNode(value)
  {
    hide Lex, ParseValue;
    var text := if value then "true" else "false";
    ghost var s := BooleanWords(value);
    var state := new ParseState(text);
    ok := state.Next();
    ok, node := DoParseValue(state);
  }

  // ----- comments -----

  lemma LineAhead(text: string, pos: nat)
    requires pos + 2 <= |text| && text[pos] == '/' && text[pos + 1] == '/'
    ensures SkipComments(text, pos) == SkipComments(text, SkipLine(text, pos))
  {
    hide SkipLine, SkipMultilineComment;
  }

  lemma BlockAhead(text: string, pos: nat)
    requires pos + 2 <= |text| && text[pos] == '/' && text[pos + 1] == '*'
    ensures SkipComments(text, pos)
            == match SkipMultilineComment(text, pos) case None => None case Some(r) => SkipComments(text, r)
  {
    hide SkipLine, SkipMultilineComment;
  }

  lemma SameBehind(text: string, pos: nat, q: nat)
    requires pos <= |text| && q <= |text| && SkipComments(text, pos) == SkipComments(text, q)
    ensures Lex(text, pos) == Lex(text, q)
  {
    hide SkipComments, FindToken, RunEnd, WordKind;
  }

  lemma FailsBehind(text: string, pos: nat)
    requires pos <= |text| && SkipComments(text, pos) == None
    ensures Lex(text, pos) == None
  {
    hide SkipComments, FindToken, RunEnd, WordKind;
  }

  lemma {:induction false} LineEnds(text: string, pos: nat, n: nat)
    requires pos + n < |text| && text[pos + n] == '\n' && forall i | pos <= i < pos + n :: text[i] != '\n'
    ensures SkipLine(text, pos) == pos + n + 1
    decreases n
  {
    if n > 0 {
      LineEnds(text, pos + 1, n - 1);
    }
  }

  /** A line comment goes up to the end of the line. */
  lemma LineCommentIsSkipped(text: string, pos: nat, n: nat)
    requires 2 <= n && pos + n < |text| && text[pos] == '/' && text[pos + 1] == '/' && text[pos + n] == '\n'
    requires forall i | pos <= i < pos + n :: text[i] != '\n'
    ensures Lex(text, pos) == Lex(text, pos + n + 1)
  {
    LineEnds(text, pos, n);
    LineAhead(text, pos);
    hide Lex;
    SameBehind(text, pos, pos + n + 1);
  }

  lemma {:induction false} CommentEnds(text: string, pos: nat, n: nat)
    requires pos + n + 2 <= |text| && text[pos + n] == '*' && text[pos + n + 1] == '/'
    requires forall i | pos <= i < pos + n :: text[i] != '*' || text[i + 1] != '/'
    ensures SkipMultilineComment(text, pos) == Some(pos + n + 2)
    decreases n
  {
    if n > 0 {
      CommentEnds(text, pos + 1, n - 1);
    }
  }

  /** A block comment goes up to the first end mark. */
  lemma BlockCommentIsSkipped(text: string, pos: nat, n: nat)
    requires 1 <= n && pos + n + 2 <= |text| && text[pos] == '/' && text[pos + 1] == '*'
    requires text[pos + n] == '*' && text[pos + n + 1] == '/'
    requires forall i | pos <= i < pos + n :: text[i] != '*' || text[i + 1] != '/'
    ensures Lex(text, pos) == Lex(text, pos + n + 2)
  {
    CommentEnds(text, pos, n);
    BlockAhead(text, pos);
    hide Lex;
    SameBehind(text, pos, pos + n + 2);
  }

  lemma {:induction false} NoCommentEnd(text: string, pos: nat)
    requires pos <= |text| && forall i | pos <= i < |text| - 1 :: text[i] != '*' || text[i + 1] != '/'
    ensures SkipMultilineComment(text, pos) == None
    decreases |text| - pos
  {
    if |text| - pos >= 2 {
      NoCommentEnd(text, pos + 1);
    }
  }

  /** Without an end mark it is an error. */
  lemma OpenCommentFails(text: string, pos: nat)
    requires pos + 2 <= |text| && text[pos] == '/' && text[pos + 1] == '*'
    requires forall i | pos <= i < |text| - 1 :: text[i] != '*' || text[i + 1] != '/'
    ensures Lex(text, pos) == None
  {
    NoCommentEnd(text, pos);
    BlockAhead(text, pos);
    FailsBehind(text, pos);
  }
}
