/**
 * Worked inputs for the lexer: the token stream of short sources, each
 * popped token written out, Eof excluded. A long source is taken a few
 * tokens at a time, from its end.
 */
module LexerExamples {
  import opened Lexing

  /** A token scanned at `i` heads the stream from `i`; what follows is the stream after it. */
  lemma Pops(s: string, i: nat, t: Token, j: nat, rest: seq<Token>)
    requires i < |s| && Scan(s, i) == Step(t, j) && Tokens(s, j) == rest
    ensures Tokens(s, i) == [t] + rest
  {
    TokensStep(s, i);
  }

  /** The stream from position 2 of a 3-character source ending in "]". */
  lemma MismatchFrom2(s: string)
    requires |s| == 3 && s[2] == ']'
    ensures Tokens(s, 2) == [Token(RBracket, "]")] + []
  {
    assert Scan(s, 2) == Step(Token(RBracket, "]"), 3);
    Pops(s, 2, Token(RBracket, "]"), 3, []);
  }

  /** The stream from position 1 of a 3-character source ending in "a]". */
  lemma MismatchFrom1(s: string)
    requires |s| == 3 && s[1] == 'a' && s[2] == ']'
    ensures Tokens(s, 1) == [Token(Symbol, "a")] + ([Token(RBracket, "]")] + [])
  {
    MismatchFrom2(s);
    assert Scan(s, 1) == Step(Token(Symbol, "a"), 2) by { assert RunEnd(s, 2, SymbolTail) == 2; }
    Pops(s, 1, Token(Symbol, "a"), 2, [Token(RBracket, "]")] + []);
  }

  /** `(a]`: an opener, a symbol and the other family's closer. */
  lemma MismatchTokens(s: string)
    requires |s| == 3 && s[0] == '(' && s[1] == 'a' && s[2] == ']'
    ensures Tokens(s, 0) == [Token(LParen, "(")] + ([Token(Symbol, "a")] + ([Token(RBracket, "]")] + []))
  {
    MismatchFrom1(s);
    assert Scan(s, 0) == Step(Token(LParen, "("), 1);
    Pops(s, 0, Token(LParen, "("), 1, [Token(Symbol, "a")] + ([Token(RBracket, "]")] + []));
  }

  /** The stream from position 1 of a 2-character source ending in "a". */
  lemma UnclosedFrom1(s: string)
    requires |s| == 2 && s[1] == 'a'
    ensures Tokens(s, 1) == [Token(Symbol, "a")] + []
  {
    assert Scan(s, 1) == Step(Token(Symbol, "a"), 2) by { assert RunEnd(s, 2, SymbolTail) == 2; }
    Pops(s, 1, Token(Symbol, "a"), 2, []);
  }

  /** `(a`: an opener and a symbol, then the end. */
  lemma UnclosedTokens(s: string)
    requires |s| == 2 && s[0] == '(' && s[1] == 'a'
    ensures Tokens(s, 0) == [Token(LParen, "(")] + ([Token(Symbol, "a")] + [])
  {
    UnclosedFrom1(s);
    assert Scan(s, 0) == Step(Token(LParen, "("), 1);
    Pops(s, 0, Token(LParen, "("), 1, [Token(Symbol, "a")] + []);
  }

  /** The stream from position 8 of a 9-character source ending in ")". */
  lemma DottedTwoFrom8(s: string)
    requires |s| == 9 && s[8] == ')'
    ensures Tokens(s, 8) == [Token(RParen, ")")] + []
  {
    assert Scan(s, 8) == Step(Token(RParen, ")"), 9);
    Pops(s, 8, Token(RParen, ")"), 9, []);
  }

  /** The stream from position 7 of a 9-character source ending in "c)". */
  lemma DottedTwoFrom7(s: string)
    requires |s| == 9 && s[7] == 'c' && s[8] == ')'
    ensures Tokens(s, 7) == [Token(Symbol, "c")] + ([Token(RParen, ")")] + [])
  {
    DottedTwoFrom8(s);
    assert Scan(s, 7) == Step(Token(Symbol, "c"), 8) by { assert RunEnd(s, 8, SymbolTail) == 8; }
    Pops(s, 7, Token(Symbol, "c"), 8, [Token(RParen, ")")] + []);
  }

  /** The stream from position 6 of a 9-character source ending in " c)". */
  lemma DottedTwoFrom6(s: string)
    requires |s| == 9 && s[6] == ' ' && s[7] == 'c' && s[8] == ')'
    ensures Tokens(s, 6) == [Token(Whitespace, " ")] + ([Token(Symbol, "c")] + ([Token(RParen, ")")] + []))
  {
    DottedTwoFrom7(s);
    assert Scan(s, 6) == Step(Token(Whitespace, " "), 7) by { assert RunEnd(s, 7, Space) == 7; }
    Pops(s, 6, Token(Whitespace, " "), 7, [Token(Symbol, "c")] + ([Token(RParen, ")")] + []));
  }

  /** The stream from position 5 of a 9-character source ending in "b c)". */
  lemma DottedTwoFrom5(s: string)
    requires |s| == 9 && s[5] == 'b' && s[6] == ' ' && s[7] == 'c' && s[8] == ')'
    ensures Tokens(s, 5) == [Token(Symbol, "b")] + ([Token(Whitespace, " ")] + ([Token(Symbol, "c")] + ([Token(RParen, ")")] + [])))
  {
    DottedTwoFrom6(s);
    assert Scan(s, 5) == Step(Token(Symbol, "b"), 6) by { assert RunEnd(s, 6, SymbolTail) == 6; }
    Pops(s, 5, Token(Symbol, "b"), 6, [Token(Whitespace, " ")] + ([Token(Symbol, "c")] + ([Token(RParen, ")")] + [])));
  }

  /** The stream from position 4 of a 9-character source ending in " b c)". */
  lemma DottedTwoFrom4(s: string)
    requires |s| == 9 && s[4] == ' ' && s[5] == 'b' && s[6] == ' ' && s[7] == 'c' && s[8] == ')'
    ensures Tokens(s, 4) == [Token(Whitespace, " ")] + ([Token(Symbol, "b")] + ([Token(Whitespace, " ")] + ([Token(Symbol, "c")] + ([Token(RParen, ")")] + []))))
  {
    DottedTwoFrom5(s);
    assert Scan(s, 4) == Step(Token(Whitespace, " "), 5) by { assert RunEnd(s, 5, Space) == 5; }
    Pops(s, 4, Token(Whitespace, " "), 5, [Token(Symbol, "b")] + ([Token(Whitespace, " ")] + ([Token(Symbol, "c")] + ([Token(RParen, ")")] + []))));
  }

  /** The stream from position 3 of a 9-character source ending in ". b c)". */
  lemma DottedTwoFrom3(s: string)
    requires |s| == 9 && s[3] == '.' && s[4] == ' ' && s[5] == 'b' && s[6] == ' ' && s[7] == 'c' && s[8] == ')'
    ensures Tokens(s, 3) == [Token(Dot, ".")] + ([Token(Whitespace, " ")] + ([Token(Symbol, "b")] + ([Token(Whitespace, " ")] + ([Token(Symbol, "c")] + ([Token(RParen, ")")] + [])))))
  {
    DottedTwoFrom4(s);
    assert Scan(s, 3) == Step(Token(Dot, "."), 4);
    Pops(s, 3, Token(Dot, "."), 4, [Token(Whitespace, " ")] + ([Token(Symbol, "b")] + ([Token(Whitespace, " ")] + ([Token(Symbol, "c")] + ([Token(RParen, ")")] + [])))));
  }

  /** The stream from position 2 of a 9-character source ending in " . b c)". */
  lemma DottedTwoFrom2(s: string)
    requires |s| == 9 && s[2] == ' ' && s[3] == '.' && s[4] == ' ' && s[5] == 'b' && s[6] == ' ' && s[7] == 'c' && s[8] == ')'
    ensures Tokens(s, 2) == [Token(Whitespace, " ")] + ([Token(Dot, ".")] + ([Token(Whitespace, " ")] + ([Token(Symbol, "b")] + ([Token(Whitespace, " ")] + ([Token(Symbol, "c")] + ([Token(RParen, ")")] + []))))))
  {
    DottedTwoFrom3(s);
    assert Scan(s, 2) == Step(Token(Whitespace, " "), 3) by { assert RunEnd(s, 3, Space) == 3; }
    Pops(s, 2, Token(Whitespace, " "), 3, [Token(Dot, ".")] + ([Token(Whitespace, " ")] + ([Token(Symbol, "b")] + ([Token(Whitespace, " ")] + ([Token(Symbol, "c")] + ([Token(RParen, ")")] + []))))));
  }

  /** The stream from position 1 of a 9-character source ending in "a . b c)". */
  lemma DottedTwoFrom1(s: string)
    requires |s| == 9 && s[1] == 'a' && s[2] == ' ' && s[3] == '.' && s[4] == ' ' && s[5] == 'b' && s[6] == ' ' && s[7] == 'c' && s[8] == ')'
    ensures Tokens(s, 1) == [Token(Symbol, "a")] + ([Token(Whitespace, " ")] + ([Token(Dot, ".")] + ([Token(Whitespace, " ")] + ([Token(Symbol, "b")] + ([Token(Whitespace, " ")] + ([Token(Symbol, "c")] + ([Token(RParen, ")")] + [])))))))
  {
    DottedTwoFrom2(s);
    assert Scan(s, 1) == Step(Token(Symbol, "a"), 2) by { assert RunEnd(s, 2, SymbolTail) == 2; }
    Pops(s, 1, Token(Symbol, "a"), 2, [Token(Whitespace, " ")] + ([Token(Dot, ".")] + ([Token(Whitespace, " ")] + ([Token(Symbol, "b")] + ([Token(Whitespace, " ")] + ([Token(Symbol, "c")] + ([Token(RParen, ")")] + [])))))));
  }

  /** `(a . b c)`: a space on each side of the Dot, and between `b` and `c`. */
  lemma DottedTwoTokens(s: string)
    requires |s| == 9 && s[0] == '(' && s[1] == 'a' && s[2] == ' ' && s[3] == '.' && s[4] == ' ' && s[5] == 'b' && s[6] == ' ' && s[7] == 'c' && s[8] == ')'
    ensures Tokens(s, 0) == [Token(LParen, "(")] + ([Token(Symbol, "a")] + ([Token(Whitespace, " ")] + ([Token(Dot, ".")] + ([Token(Whitespace, " ")] + ([Token(Symbol, "b")] + ([Token(Whitespace, " ")] + ([Token(Symbol, "c")] + ([Token(RParen, ")")] + []))))))))
  {
    DottedTwoFrom1(s);
    assert Scan(s, 0) == Step(Token(LParen, "("), 1);
    Pops(s, 0, Token(LParen, "("), 1, [Token(Symbol, "a")] + ([Token(Whitespace, " ")] + ([Token(Dot, ".")] + ([Token(Whitespace, " ")] + ([Token(Symbol, "b")] + ([Token(Whitespace, " ")] + ([Token(Symbol, "c")] + ([Token(RParen, ")")] + []))))))));
  }

  /** The stream from position 4 of a 5-character source ending in ")". */
  lemma DotFirstFrom4(s: string)
    requires |s| == 5 && s[4] == ')'
    ensures Tokens(s, 4) == [Token(RParen, ")")] + []
  {
    assert Scan(s, 4) == Step(Token(RParen, ")"), 5);
    Pops(s, 4, Token(RParen, ")"), 5, []);
  }

  /** The stream from position 3 of a 5-character source ending in "b)". */
  lemma DotFirstFrom3(s: string)
    requires |s| == 5 && s[3] == 'b' && s[4] == ')'
    ensures Tokens(s, 3) == [Token(Symbol, "b")] + ([Token(RParen, ")")] + [])
  {
    DotFirstFrom4(s);
    assert Scan(s, 3) == Step(Token(Symbol, "b"), 4) by { assert RunEnd(s, 4, SymbolTail) == 4; }
    Pops(s, 3, Token(Symbol, "b"), 4, [Token(RParen, ")")] + []);
  }

  /** The stream from position 2 of a 5-character source ending in " b)". */
  lemma DotFirstFrom2(s: string)
    requires |s| == 5 && s[2] == ' ' && s[3] == 'b' && s[4] == ')'
    ensures Tokens(s, 2) == [Token(Whitespace, " ")] + ([Token(Symbol, "b")] + ([Token(RParen, ")")] + []))
  {
    DotFirstFrom3(s);
    assert Scan(s, 2) == Step(Token(Whitespace, " "), 3) by { assert RunEnd(s, 3, Space) == 3; }
    Pops(s, 2, Token(Whitespace, " "), 3, [Token(Symbol, "b")] + ([Token(RParen, ")")] + []));
  }

  /** The stream from position 1 of a 5-character source ending in ". b)". */
  lemma DotFirstFrom1(s: string)
    requires |s| == 5 && s[1] == '.' && s[2] == ' ' && s[3] == 'b' && s[4] == ')'
    ensures Tokens(s, 1) == [Token(Dot, ".")] + ([Token(Whitespace, " ")] + ([Token(Symbol, "b")] + ([Token(RParen, ")")] + [])))
  {
    DotFirstFrom2(s);
    assert Scan(s, 1) == Step(Token(Dot, "."), 2);
    Pops(s, 1, Token(Dot, "."), 2, [Token(Whitespace, " ")] + ([Token(Symbol, "b")] + ([Token(RParen, ")")] + [])));
  }

  /** `(. b)`: a Dot straight after the opener. */
  lemma DotFirstTokens(s: string)
    requires |s| == 5 && s[0] == '(' && s[1] == '.' && s[2] == ' ' && s[3] == 'b' && s[4] == ')'
    ensures Tokens(s, 0) == [Token(LParen, "(")] + ([Token(Dot, ".")] + ([Token(Whitespace, " ")] + ([Token(Symbol, "b")] + ([Token(RParen, ")")] + []))))
  {
    DotFirstFrom1(s);
    assert Scan(s, 0) == Step(Token(LParen, "("), 1);
    Pops(s, 0, Token(LParen, "("), 1, [Token(Dot, ".")] + ([Token(Whitespace, " ")] + ([Token(Symbol, "b")] + ([Token(RParen, ")")] + []))));
  }

  /** The stream from position 6 of a 7-character source ending in ")". */
  lemma EllipsisOneFrom6(s: string)
    requires |s| == 7 && s[6] == ')'
    ensures Tokens(s, 6) == [Token(RParen, ")")] + []
  {
    assert Scan(s, 6) == Step(Token(RParen, ")"), 7);
    Pops(s, 6, Token(RParen, ")"), 7, []);
  }

  /** The stream from position 3 of a 7-character source ending in "..1)". */
  lemma EllipsisOneFrom3(s: string)
    requires |s| == 7 && s[3] == '.' && s[4] == '.' && s[5] == '1' && s[6] == ')'
    ensures Tokens(s, 3) == [Token(Ellipsis1, "..1")] + ([Token(RParen, ")")] + [])
  {
    EllipsisOneFrom6(s);
    assert Scan(s, 3) == Step(Token(Ellipsis1, "..1"), 6);
    Pops(s, 3, Token(Ellipsis1, "..1"), 6, [Token(RParen, ")")] + []);
  }

  /** The stream from position 2 of a 7-character source ending in " ..1)". */
  lemma EllipsisOneFrom2(s: string)
    requires |s| == 7 && s[2] == ' ' && s[3] == '.' && s[4] == '.' && s[5] == '1' && s[6] == ')'
    ensures Tokens(s, 2) == [Token(Whitespace, " ")] + ([Token(Ellipsis1, "..1")] + ([Token(RParen, ")")] + []))
  {
    EllipsisOneFrom3(s);
    assert Scan(s, 2) == Step(Token(Whitespace, " "), 3) by { assert RunEnd(s, 3, Space) == 3; }
    Pops(s, 2, Token(Whitespace, " "), 3, [Token(Ellipsis1, "..1")] + ([Token(RParen, ")")] + []));
  }

  /** The stream from position 1 of a 7-character source ending in "a ..1)". */
  lemma EllipsisOneFrom1(s: string)
    requires |s| == 7 && s[1] == 'a' && s[2] == ' ' && s[3] == '.' && s[4] == '.' && s[5] == '1' && s[6] == ')'
    ensures Tokens(s, 1) == [Token(Symbol, "a")] + ([Token(Whitespace, " ")] + ([Token(Ellipsis1, "..1")] + ([Token(RParen, ")")] + [])))
  {
    EllipsisOneFrom2(s);
    assert Scan(s, 1) == Step(Token(Symbol, "a"), 2) by { assert RunEnd(s, 2, SymbolTail) == 2; }
    Pops(s, 1, Token(Symbol, "a"), 2, [Token(Whitespace, " ")] + ([Token(Ellipsis1, "..1")] + ([Token(RParen, ")")] + [])));
  }

  /** `(a ..1)`: `..1` is an Ellipsis1 token. */
  lemma EllipsisOneTokens(s: string)
    requires |s| == 7 && s[0] == '(' && s[1] == 'a' && s[2] == ' ' && s[3] == '.' && s[4] == '.' && s[5] == '1' && s[6] == ')'
    ensures Tokens(s, 0) == [Token(LParen, "(")] + ([Token(Symbol, "a")] + ([Token(Whitespace, " ")] + ([Token(Ellipsis1, "..1")] + ([Token(RParen, ")")] + []))))
  {
    EllipsisOneFrom1(s);
    assert Scan(s, 0) == Step(Token(LParen, "("), 1);
    Pops(s, 0, Token(LParen, "("), 1, [Token(Symbol, "a")] + ([Token(Whitespace, " ")] + ([Token(Ellipsis1, "..1")] + ([Token(RParen, ")")] + []))));
  }

  /** `'x`: a Quote token, then the symbol. */
  lemma QuoteMarkTokens(s: string)
    requires |s| == 2 && s[0] == '\'' && s[1] == 'x'
    ensures Tokens(s, 0) == [Token(Quote, "'")] + ([Token(Symbol, "x")] + [])
  {
    assert Scan(s, 1) == Step(Token(Symbol, "x"), 2) by { assert RunEnd(s, 2, SymbolTail) == 2; }
    Pops(s, 1, Token(Symbol, "x"), 2, []);
    assert Scan(s, 0) == Step(Token(Quote, "'"), 1);
    Pops(s, 0, Token(Quote, "'"), 1, [Token(Symbol, "x")] + []);
  }

  /** The stream from position 1 of a 9-character source ending in "quote x)". */
  lemma QuoteListFrom1(s: string)
    requires |s| == 9 && s[1] == 'q' && s[2] == 'u' && s[3] == 'o' && s[4] == 't' && s[5] == 'e' && s[6] == ' ' && s[7] == 'x' && s[8] == ')'
    ensures Tokens(s, 1) == [Token(Symbol, "quote")] + ([Token(Whitespace, " ")] + ([Token(Symbol, "x")] + ([Token(RParen, ")")] + [])))
  {
    DottedTwoFrom8(s);
    assert Scan(s, 7) == Step(Token(Symbol, "x"), 8) by { assert RunEnd(s, 8, SymbolTail) == 8; }
    Pops(s, 7, Token(Symbol, "x"), 8, [Token(RParen, ")")] + []);
    assert Scan(s, 6) == Step(Token(Whitespace, " "), 7) by { assert RunEnd(s, 7, Space) == 7; }
    Pops(s, 6, Token(Whitespace, " "), 7, [Token(Symbol, "x")] + ([Token(RParen, ")")] + []));
    assert Scan(s, 1) == Step(Token(Symbol, "quote"), 6) by { assert s[1..6] == "quote"; assert RunEnd(s, 6, SymbolTail) == 6; assert RunEnd(s, 5, SymbolTail) == 6; assert RunEnd(s, 4, SymbolTail) == 6; assert RunEnd(s, 3, SymbolTail) == 6; assert RunEnd(s, 2, SymbolTail) == 6; }
    Pops(s, 1, Token(Symbol, "quote"), 6, [Token(Whitespace, " ")] + ([Token(Symbol, "x")] + ([Token(RParen, ")")] + [])));
  }

  /** `(quote x)`: the list written out. */
  lemma QuoteListTokens(s: string)
    requires |s| == 9 && s[0] == '(' && s[1] == 'q' && s[2] == 'u' && s[3] == 'o' && s[4] == 't' && s[5] == 'e' && s[6] == ' ' && s[7] == 'x' && s[8] == ')'
    ensures Tokens(s, 0) == [Token(LParen, "(")] + ([Token(Symbol, "quote")] + ([Token(Whitespace, " ")] + ([Token(Symbol, "x")] + ([Token(RParen, ")")] + []))))
  {
    QuoteListFrom1(s);
    assert Scan(s, 0) == Step(Token(LParen, "("), 1);
    Pops(s, 0, Token(LParen, "("), 1, [Token(Symbol, "quote")] + ([Token(Whitespace, " ")] + ([Token(Symbol, "x")] + ([Token(RParen, ")")] + []))));
  }

  /** The stream from position 1 of a 2-character source ending in ")". */
  lemma EmptyParensFrom1(s: string)
    requires |s| == 2 && s[1] == ')'
    ensures Tokens(s, 1) == [Token(RParen, ")")] + []
  {
    assert Scan(s, 1) == Step(Token(RParen, ")"), 2);
    Pops(s, 1, Token(RParen, ")"), 2, []);
  }

  /** `()`. */
  lemma EmptyParensTokens(s: string)
    requires |s| == 2 && s[0] == '(' && s[1] == ')'
    ensures Tokens(s, 0) == [Token(LParen, "(")] + ([Token(RParen, ")")] + [])
  {
    EmptyParensFrom1(s);
    assert Scan(s, 0) == Step(Token(LParen, "("), 1);
    Pops(s, 0, Token(LParen, "("), 1, [Token(RParen, ")")] + []);
  }

  /** The stream from position 1 of a 2-character source ending in "]". */
  lemma EmptyBracketsFrom1(s: string)
    requires |s| == 2 && s[1] == ']'
    ensures Tokens(s, 1) == [Token(RBracket, "]")] + []
  {
    assert Scan(s, 1) == Step(Token(RBracket, "]"), 2);
    Pops(s, 1, Token(RBracket, "]"), 2, []);
  }

  /** `[]`. */
  lemma EmptyBracketsTokens(s: string)
    requires |s| == 2 && s[0] == '[' && s[1] == ']'
    ensures Tokens(s, 0) == [Token(LBracket, "[")] + ([Token(RBracket, "]")] + [])
  {
    EmptyBracketsFrom1(s);
    assert Scan(s, 0) == Step(Token(LBracket, "["), 1);
    Pops(s, 0, Token(LBracket, "["), 1, [Token(RBracket, "]")] + []);
  }

  /** The stream from position 5 of a 9-character source ending in "...)". */
  lemma EllipsisLastFrom5(s: string)
    requires |s| == 9 && s[5] == '.' && s[6] == '.' && s[7] == '.' && s[8] == ')'
    ensures Tokens(s, 5) == [Token(Ellipsis, "...")] + ([Token(RParen, ")")] + [])
  {
    DottedTwoFrom8(s);
    assert Scan(s, 5) == Step(Token(Ellipsis, "..."), 8);
    Pops(s, 5, Token(Ellipsis, "..."), 8, [Token(RParen, ")")] + []);
  }

  /** The stream from position 4 of a 9-character source ending in " ...)". */
  lemma EllipsisLastFrom4(s: string)
    requires |s| == 9 && s[4] == ' ' && s[5] == '.' && s[6] == '.' && s[7] == '.' && s[8] == ')'
    ensures Tokens(s, 4) == [Token(Whitespace, " ")] + ([Token(Ellipsis, "...")] + ([Token(RParen, ")")] + []))
  {
    EllipsisLastFrom5(s);
    assert Scan(s, 4) == Step(Token(Whitespace, " "), 5) by { assert RunEnd(s, 5, Space) == 5; }
    Pops(s, 4, Token(Whitespace, " "), 5, [Token(Ellipsis, "...")] + ([Token(RParen, ")")] + []));
  }

  /** The stream from position 3 of a 9-character source ending in "b ...)". */
  lemma EllipsisLastFrom3(s: string)
    requires |s| == 9 && s[3] == 'b' && s[4] == ' ' && s[5] == '.' && s[6] == '.' && s[7] == '.' && s[8] == ')'
    ensures Tokens(s, 3) == [Token(Symbol, "b")] + ([Token(Whitespace, " ")] + ([Token(Ellipsis, "...")] + ([Token(RParen, ")")] + [])))
  {
    EllipsisLastFrom4(s);
    assert Scan(s, 3) == Step(Token(Symbol, "b"), 4) by { assert RunEnd(s, 4, SymbolTail) == 4; }
    Pops(s, 3, Token(Symbol, "b"), 4, [Token(Whitespace, " ")] + ([Token(Ellipsis, "...")] + ([Token(RParen, ")")] + [])));
  }

  /** The stream from position 2 of a 9-character source ending in " b ...)". */
  lemma EllipsisLastFrom2(s: string)
    requires |s| == 9 && s[2] == ' ' && s[3] == 'b' && s[4] == ' ' && s[5] == '.' && s[6] == '.' && s[7] == '.' && s[8] == ')'
    ensures Tokens(s, 2) == [Token(Whitespace, " ")] + ([Token(Symbol, "b")] + ([Token(Whitespace, " ")] + ([Token(Ellipsis, "...")] + ([Token(RParen, ")")] + []))))
  {
    EllipsisLastFrom3(s);
    assert Scan(s, 2) == Step(Token(Whitespace, " "), 3) by { assert RunEnd(s, 3, Space) == 3; }
    Pops(s, 2, Token(Whitespace, " "), 3, [Token(Symbol, "b")] + ([Token(Whitespace, " ")] + ([Token(Ellipsis, "...")] + ([Token(RParen, ")")] + []))));
  }

  /** The stream from position 1 of a 9-character source ending in "a b ...)". */
  lemma EllipsisLastFrom1(s: string)
    requires |s| == 9 && s[1] == 'a' && s[2] == ' ' && s[3] == 'b' && s[4] == ' ' && s[5] == '.' && s[6] == '.' && s[7] == '.' && s[8] == ')'
    ensures Tokens(s, 1) == [Token(Symbol, "a")] + ([Token(Whitespace, " ")] + ([Token(Symbol, "b")] + ([Token(Whitespace, " ")] + ([Token(Ellipsis, "...")] + ([Token(RParen, ")")] + [])))))
  {
    EllipsisLastFrom2(s);
    assert Scan(s, 1) == Step(Token(Symbol, "a"), 2) by { assert RunEnd(s, 2, SymbolTail) == 2; }
    Pops(s, 1, Token(Symbol, "a"), 2, [Token(Whitespace, " ")] + ([Token(Symbol, "b")] + ([Token(Whitespace, " ")] + ([Token(Ellipsis, "...")] + ([Token(RParen, ")")] + [])))));
  }

  /** `(a b ...)`: `...` is one Ellipsis token. */
  lemma EllipsisLastTokens(s: string)
    requires |s| == 9 && s[0] == '(' && s[1] == 'a' && s[2] == ' ' && s[3] == 'b' && s[4] == ' ' && s[5] == '.' && s[6] == '.' && s[7] == '.' && s[8] == ')'
    ensures Tokens(s, 0) == [Token(LParen, "(")] + ([Token(Symbol, "a")] + ([Token(Whitespace, " ")] + ([Token(Symbol, "b")] + ([Token(Whitespace, " ")] + ([Token(Ellipsis, "...")] + ([Token(RParen, ")")] + []))))))
  {
    EllipsisLastFrom1(s);
    assert Scan(s, 0) == Step(Token(LParen, "("), 1);
    Pops(s, 0, Token(LParen, "("), 1, [Token(Symbol, "a")] + ([Token(Whitespace, " ")] + ([Token(Symbol, "b")] + ([Token(Whitespace, " ")] + ([Token(Ellipsis, "...")] + ([Token(RParen, ")")] + []))))));
  }

  /** The stream from position 5 of a 9-character source ending in ". c)". */
  lemma DottedFrom5(s: string)
    requires |s| == 9 && s[5] == '.' && s[6] == ' ' && s[7] == 'c' && s[8] == ')'
    ensures Tokens(s, 5) == [Token(Dot, ".")] + ([Token(Whitespace, " ")] + ([Token(Symbol, "c")] + ([Token(RParen, ")")] + [])))
  {
    DottedTwoFrom6(s);
    assert Scan(s, 5) == Step(Token(Dot, "."), 6);
    Pops(s, 5, Token(Dot, "."), 6, [Token(Whitespace, " ")] + ([Token(Symbol, "c")] + ([Token(RParen, ")")] + [])));
  }

  /** The stream from position 4 of a 9-character source ending in " . c)". */
  lemma DottedFrom4(s: string)
    requires |s| == 9 && s[4] == ' ' && s[5] == '.' && s[6] == ' ' && s[7] == 'c' && s[8] == ')'
    ensures Tokens(s, 4) == [Token(Whitespace, " ")] + ([Token(Dot, ".")] + ([Token(Whitespace, " ")] + ([Token(Symbol, "c")] + ([Token(RParen, ")")] + []))))
  {
    DottedFrom5(s);
    assert Scan(s, 4) == Step(Token(Whitespace, " "), 5) by { assert RunEnd(s, 5, Space) == 5; }
    Pops(s, 4, Token(Whitespace, " "), 5, [Token(Dot, ".")] + ([Token(Whitespace, " ")] + ([Token(Symbol, "c")] + ([Token(RParen, ")")] + []))));
  }

  /** The stream from position 3 of a 9-character source ending in "b . c)". */
  lemma DottedFrom3(s: string)
    requires |s| == 9 && s[3] == 'b' && s[4] == ' ' && s[5] == '.' && s[6] == ' ' && s[7] == 'c' && s[8] == ')'
    ensures Tokens(s, 3) == [Token(Symbol, "b")] + ([Token(Whitespace, " ")] + ([Token(Dot, ".")] + ([Token(Whitespace, " ")] + ([Token(Symbol, "c")] + ([Token(RParen, ")")] + [])))))
  {
    DottedFrom4(s);
    assert Scan(s, 3) == Step(Token(Symbol, "b"), 4) by { assert RunEnd(s, 4, SymbolTail) == 4; }
    Pops(s, 3, Token(Symbol, "b"), 4, [Token(Whitespace, " ")] + ([Token(Dot, ".")] + ([Token(Whitespace, " ")] + ([Token(Symbol, "c")] + ([Token(RParen, ")")] + [])))));
  }

  /** The stream from position 2 of a 9-character source ending in " b . c)". */
  lemma DottedFrom2(s: string)
    requires |s| == 9 && s[2] == ' ' && s[3] == 'b' && s[4] == ' ' && s[5] == '.' && s[6] == ' ' && s[7] == 'c' && s[8] == ')'
    ensures Tokens(s, 2) == [Token(Whitespace, " ")] + ([Token(Symbol, "b")] + ([Token(Whitespace, " ")] + ([Token(Dot, ".")] + ([Token(Whitespace, " ")] + ([Token(Symbol, "c")] + ([Token(RParen, ")")] + []))))))
  {
    DottedFrom3(s);
    assert Scan(s, 2) == Step(Token(Whitespace, " "), 3) by { assert RunEnd(s, 3, Space) == 3; }
    Pops(s, 2, Token(Whitespace, " "), 3, [Token(Symbol, "b")] + ([Token(Whitespace, " ")] + ([Token(Dot, ".")] + ([Token(Whitespace, " ")] + ([Token(Symbol, "c")] + ([Token(RParen, ")")] + []))))));
  }

  /** The stream from position 1 of a 9-character source ending in "a b . c)". */
  lemma DottedFrom1(s: string)
    requires |s| == 9 && s[1] == 'a' && s[2] == ' ' && s[3] == 'b' && s[4] == ' ' && s[5] == '.' && s[6] == ' ' && s[7] == 'c' && s[8] == ')'
    ensures Tokens(s, 1) == [Token(Symbol, "a")] + ([Token(Whitespace, " ")] + ([Token(Symbol, "b")] + ([Token(Whitespace, " ")] + ([Token(Dot, ".")] + ([Token(Whitespace, " ")] + ([Token(Symbol, "c")] + ([Token(RParen, ")")] + [])))))))
  {
    DottedFrom2(s);
    assert Scan(s, 1) == Step(Token(Symbol, "a"), 2) by { assert RunEnd(s, 2, SymbolTail) == 2; }
    Pops(s, 1, Token(Symbol, "a"), 2, [Token(Whitespace, " ")] + ([Token(Symbol, "b")] + ([Token(Whitespace, " ")] + ([Token(Dot, ".")] + ([Token(Whitespace, " ")] + ([Token(Symbol, "c")] + ([Token(RParen, ")")] + [])))))));
  }

  /** `(a b . c)`. */
  lemma DottedTokens(s: string)
    requires |s| == 9 && s[0] == '(' && s[1] == 'a' && s[2] == ' ' && s[3] == 'b' && s[4] == ' ' && s[5] == '.' && s[6] == ' ' && s[7] == 'c' && s[8] == ')'
    ensures Tokens(s, 0) == [Token(LParen, "(")] + ([Token(Symbol, "a")] + ([Token(Whitespace, " ")] + ([Token(Symbol, "b")] + ([Token(Whitespace, " ")] + ([Token(Dot, ".")] + ([Token(Whitespace, " ")] + ([Token(Symbol, "c")] + ([Token(RParen, ")")] + []))))))))
  {
    DottedFrom1(s);
    assert Scan(s, 0) == Step(Token(LParen, "("), 1);
    Pops(s, 0, Token(LParen, "("), 1, [Token(Symbol, "a")] + ([Token(Whitespace, " ")] + ([Token(Symbol, "b")] + ([Token(Whitespace, " ")] + ([Token(Dot, ".")] + ([Token(Whitespace, " ")] + ([Token(Symbol, "c")] + ([Token(RParen, ")")] + []))))))));
  }

  /** The stream from position 1 of a 2-character source ending in "\n". */
  lemma TrailingNewlineFrom1(s: string)
    requires |s| == 2 && s[1] == '\n'
    ensures Tokens(s, 1) == [Token(Whitespace, "\n")] + []
  {
    assert Scan(s, 1) == Step(Token(Whitespace, "\n"), 2) by { assert RunEnd(s, 2, Space) == 2; }
    Pops(s, 1, Token(Whitespace, "\n"), 2, []);
  }

  /** `a` and a newline: the newline is a Whitespace token of its own. */
  lemma TrailingNewlineTokens(s: string)
    requires |s| == 2 && s[0] == 'a' && s[1] == '\n'
    ensures Tokens(s, 0) == [Token(Symbol, "a")] + ([Token(Whitespace, "\n")] + [])
  {
    TrailingNewlineFrom1(s);
    assert Scan(s, 0) == Step(Token(Symbol, "a"), 1) by { assert RunEnd(s, 1, SymbolTail) == 1; }
    Pops(s, 0, Token(Symbol, "a"), 1, [Token(Whitespace, "\n")] + []);
  }

  /** The stream from position 3 of a 4-character source ending in "]". */
  lemma DelimitersFrom3(s: string)
    requires |s| == 4 && s[3] == ']'
    ensures Tokens(s, 3) == [Token(RBracket, "]")] + []
  {
    assert Scan(s, 3) == Step(Token(RBracket, "]"), 4);
    Pops(s, 3, Token(RBracket, "]"), 4, []);
  }

  /** The stream from position 2 of a 4-character source ending in "[]". */
  lemma DelimitersFrom2(s: string)
    requires |s| == 4 && s[2] == '[' && s[3] == ']'
    ensures Tokens(s, 2) == [Token(LBracket, "[")] + ([Token(RBracket, "]")] + [])
  {
    DelimitersFrom3(s);
    assert Scan(s, 2) == Step(Token(LBracket, "["), 3);
    Pops(s, 2, Token(LBracket, "["), 3, [Token(RBracket, "]")] + []);
  }

  /** The stream from position 1 of a 4-character source ending in ")[]". */
  lemma DelimitersFrom1(s: string)
    requires |s| == 4 && s[1] == ')' && s[2] == '[' && s[3] == ']'
    ensures Tokens(s, 1) == [Token(RParen, ")")] + ([Token(LBracket, "[")] + ([Token(RBracket, "]")] + []))
  {
    DelimitersFrom2(s);
    assert Scan(s, 1) == Step(Token(RParen, ")"), 2);
    Pops(s, 1, Token(RParen, ")"), 2, [Token(LBracket, "[")] + ([Token(RBracket, "]")] + []));
  }

  /** `()[]`: four one-character tokens. */
  lemma DelimitersTokens(s: string)
    requires |s| == 4 && s[0] == '(' && s[1] == ')' && s[2] == '[' && s[3] == ']'
    ensures Tokens(s, 0) == [Token(LParen, "(")] + ([Token(RParen, ")")] + ([Token(LBracket, "[")] + ([Token(RBracket, "]")] + [])))
  {
    DelimitersFrom1(s);
    assert Scan(s, 0) == Step(Token(LParen, "("), 1);
    Pops(s, 0, Token(LParen, "("), 1, [Token(RParen, ")")] + ([Token(LBracket, "[")] + ([Token(RBracket, "]")] + [])));
  }

  /** The stream from position 11 of a 14-character source ending in "..1". */
  lemma PunctuationFrom11(s: string)
    requires |s| == 14 && s[11] == '.' && s[12] == '.' && s[13] == '1'
    ensures Tokens(s, 11) == [Token(Ellipsis1, "..1")] + []
  {
    assert Scan(s, 11) == Step(Token(Ellipsis1, "..1"), 14);
    Pops(s, 11, Token(Ellipsis1, "..1"), 14, []);
  }

  /** The stream from position 10 of a 14-character source ending in " ..1". */
  lemma PunctuationFrom10(s: string)
    requires |s| == 14 && s[10] == ' ' && s[11] == '.' && s[12] == '.' && s[13] == '1'
    ensures Tokens(s, 10) == [Token(Whitespace, " ")] + ([Token(Ellipsis1, "..1")] + [])
  {
    PunctuationFrom11(s);
    assert Scan(s, 10) == Step(Token(Whitespace, " "), 11) by { assert RunEnd(s, 11, Space) == 11; }
    Pops(s, 10, Token(Whitespace, " "), 11, [Token(Ellipsis1, "..1")] + []);
  }

  /** The stream from position 7 of a 14-character source ending in "... ..1". */
  lemma PunctuationFrom7(s: string)
    requires |s| == 14 && s[7] == '.' && s[8] == '.' && s[9] == '.' && s[10] == ' ' && s[11] == '.' && s[12] == '.' && s[13] == '1'
    ensures Tokens(s, 7) == [Token(Ellipsis, "...")] + ([Token(Whitespace, " ")] + ([Token(Ellipsis1, "..1")] + []))
  {
    PunctuationFrom10(s);
    assert Scan(s, 7) == Step(Token(Ellipsis, "..."), 10);
    Pops(s, 7, Token(Ellipsis, "..."), 10, [Token(Whitespace, " ")] + ([Token(Ellipsis1, "..1")] + []));
  }

  /** The stream from position 6 of a 14-character source ending in " ... ..1". */
  lemma PunctuationFrom6(s: string)
    requires |s| == 14 && s[6] == ' ' && s[7] == '.' && s[8] == '.' && s[9] == '.' && s[10] == ' ' && s[11] == '.' && s[12] == '.' && s[13] == '1'
    ensures Tokens(s, 6) == [Token(Whitespace, " ")] + ([Token(Ellipsis, "...")] + ([Token(Whitespace, " ")] + ([Token(Ellipsis1, "..1")] + [])))
  {
    PunctuationFrom7(s);
    assert Scan(s, 6) == Step(Token(Whitespace, " "), 7) by { assert RunEnd(s, 7, Space) == 7; }
    Pops(s, 6, Token(Whitespace, " "), 7, [Token(Ellipsis, "...")] + ([Token(Whitespace, " ")] + ([Token(Ellipsis1, "..1")] + [])));
  }

  /** The stream from position 5 of a 14-character source ending in ". ... ..1". */
  lemma PunctuationFrom5(s: string)
    requires |s| == 14 && s[5] == '.' && s[6] == ' ' && s[7] == '.' && s[8] == '.' && s[9] == '.' && s[10] == ' ' && s[11] == '.' && s[12] == '.' && s[13] == '1'
    ensures Tokens(s, 5) == [Token(Dot, ".")] + ([Token(Whitespace, " ")] + ([Token(Ellipsis, "...")] + ([Token(Whitespace, " ")] + ([Token(Ellipsis1, "..1")] + []))))
  {
    PunctuationFrom6(s);
    assert Scan(s, 5) == Step(Token(Dot, "."), 6);
    Pops(s, 5, Token(Dot, "."), 6, [Token(Whitespace, " ")] + ([Token(Ellipsis, "...")] + ([Token(Whitespace, " ")] + ([Token(Ellipsis1, "..1")] + []))));
  }

  /** The stream from position 4 of a 14-character source ending in " . ... ..1". */
  lemma PunctuationFrom4(s: string)
    requires |s| == 14 && s[4] == ' ' && s[5] == '.' && s[6] == ' ' && s[7] == '.' && s[8] == '.' && s[9] == '.' && s[10] == ' ' && s[11] == '.' && s[12] == '.' && s[13] == '1'
    ensures Tokens(s, 4) == [Token(Whitespace, " ")] + ([Token(Dot, ".")] + ([Token(Whitespace, " ")] + ([Token(Ellipsis, "...")] + ([Token(Whitespace, " ")] + ([Token(Ellipsis1, "..1")] + [])))))
  {
    PunctuationFrom5(s);
    assert Scan(s, 4) == Step(Token(Whitespace, " "), 5) by { assert RunEnd(s, 5, Space) == 5; }
    Pops(s, 4, Token(Whitespace, " "), 5, [Token(Dot, ".")] + ([Token(Whitespace, " ")] + ([Token(Ellipsis, "...")] + ([Token(Whitespace, " ")] + ([Token(Ellipsis1, "..1")] + [])))));
  }

  /** The stream from position 2 of a 14-character source ending in ",@ . ... ..1". */
  lemma PunctuationFrom2(s: string)
    requires |s| == 14 && s[2] == ',' && s[3] == '@' && s[4] == ' ' && s[5] == '.' && s[6] == ' ' && s[7] == '.' && s[8] == '.' && s[9] == '.' && s[10] == ' ' && s[11] == '.' && s[12] == '.' && s[13] == '1'
    ensures Tokens(s, 2) == [Token(CommaAt, ",@")] + ([Token(Whitespace, " ")] + ([Token(Dot, ".")] + ([Token(Whitespace, " ")] + ([Token(Ellipsis, "...")] + ([Token(Whitespace, " ")] + ([Token(Ellipsis1, "..1")] + []))))))
  {
    PunctuationFrom4(s);
    assert Scan(s, 2) == Step(Token(CommaAt, ",@"), 4);
    Pops(s, 2, Token(CommaAt, ",@"), 4, [Token(Whitespace, " ")] + ([Token(Dot, ".")] + ([Token(Whitespace, " ")] + ([Token(Ellipsis, "...")] + ([Token(Whitespace, " ")] + ([Token(Ellipsis1, "..1")] + []))))));
  }

  /** The stream from position 1 of a 14-character source ending in " ,@ . ... ..1". */
  lemma PunctuationFrom1(s: string)
    requires |s| == 14 && s[1] == ' ' && s[2] == ',' && s[3] == '@' && s[4] == ' ' && s[5] == '.' && s[6] == ' ' && s[7] == '.' && s[8] == '.' && s[9] == '.' && s[10] == ' ' && s[11] == '.' && s[12] == '.' && s[13] == '1'
    ensures Tokens(s, 1) == [Token(Whitespace, " ")] + ([Token(CommaAt, ",@")] + ([Token(Whitespace, " ")] + ([Token(Dot, ".")] + ([Token(Whitespace, " ")] + ([Token(Ellipsis, "...")] + ([Token(Whitespace, " ")] + ([Token(Ellipsis1, "..1")] + [])))))))
  {
    PunctuationFrom2(s);
    assert Scan(s, 1) == Step(Token(Whitespace, " "), 2) by { assert RunEnd(s, 2, Space) == 2; }
    Pops(s, 1, Token(Whitespace, " "), 2, [Token(CommaAt, ",@")] + ([Token(Whitespace, " ")] + ([Token(Dot, ".")] + ([Token(Whitespace, " ")] + ([Token(Ellipsis, "...")] + ([Token(Whitespace, " ")] + ([Token(Ellipsis1, "..1")] + [])))))));
  }

  /** `, ,@ . ... ..1`: Comma, CommaAt, Dot, Ellipsis and Ellipsis1, apart. */
  lemma PunctuationTokens(s: string)
    requires |s| == 14 && s[0] == ',' && s[1] == ' ' && s[2] == ',' && s[3] == '@' && s[4] == ' ' && s[5] == '.' && s[6] == ' ' && s[7] == '.' && s[8] == '.' && s[9] == '.' && s[10] == ' ' && s[11] == '.' && s[12] == '.' && s[13] == '1'
    ensures Tokens(s, 0) == [Token(Comma, ",")] + ([Token(Whitespace, " ")] + ([Token(CommaAt, ",@")] + ([Token(Whitespace, " ")] + ([Token(Dot, ".")] + ([Token(Whitespace, " ")] + ([Token(Ellipsis, "...")] + ([Token(Whitespace, " ")] + ([Token(Ellipsis1, "..1")] + []))))))))
  {
    PunctuationFrom1(s);
    assert Scan(s, 0) == Step(Token(Comma, ","), 1);
    Pops(s, 0, Token(Comma, ","), 1, [Token(Whitespace, " ")] + ([Token(CommaAt, ",@")] + ([Token(Whitespace, " ")] + ([Token(Dot, ".")] + ([Token(Whitespace, " ")] + ([Token(Ellipsis, "...")] + ([Token(Whitespace, " ")] + ([Token(Ellipsis1, "..1")] + []))))))));
  }

  /** The stream from position 3 of a 5-character source ending in "34". */
  lemma DotDigitsFrom3(s: string)
    requires |s| == 5 && s[3] == '3' && s[4] == '4'
    ensures Tokens(s, 3) == [Token(Number, "34")] + []
  {
    assert Scan(s, 3) == Step(Token(Number, "34"), 5) by { assert RunEnd(s, 5, Digit) == 5; assert RunEnd(s, 4, Digit) == 5; }
    Pops(s, 3, Token(Number, "34"), 5, []);
  }

  /** `..134`: an Ellipsis1 `..1` and then the Number `34`, not one Ellipsis. */
  lemma DotDigitsTokens(s: string)
    requires |s| == 5 && s[0] == '.' && s[1] == '.' && s[2] == '1' && s[3] == '3' && s[4] == '4'
    ensures Tokens(s, 0) == [Token(Ellipsis1, "..1")] + ([Token(Number, "34")] + [])
  {
    DotDigitsFrom3(s);
    assert Scan(s, 0) == Step(Token(Ellipsis1, "..1"), 3);
    Pops(s, 0, Token(Ellipsis1, "..1"), 3, [Token(Number, "34")] + []);
  }

  /** The stream from position 1 of a 2-character source ending in ".". */
  lemma TwoDotsFrom1(s: string)
    requires |s| == 2 && s[1] == '.'
    ensures Tokens(s, 1) == [Token(Dot, ".")] + []
  {
    assert Scan(s, 1) == Step(Token(Dot, "."), 2);
    Pops(s, 1, Token(Dot, "."), 2, []);
  }

  /** `..`: two Dots. */
  lemma TwoDotsTokens(s: string)
    requires |s| == 2 && s[0] == '.' && s[1] == '.'
    ensures Tokens(s, 0) == [Token(Dot, ".")] + ([Token(Dot, ".")] + [])
  {
    TwoDotsFrom1(s);
    assert Scan(s, 0) == Step(Token(Dot, "."), 1);
    Pops(s, 0, Token(Dot, "."), 1, [Token(Dot, ".")] + []);
  }

  /** The stream from position 9 of a 13-character source ending in "-.33". */
  lemma NumberEdgesFrom9(s: string)
    requires |s| == 13 && s[9] == '-' && s[10] == '.' && s[11] == '3' && s[12] == '3'
    ensures Tokens(s, 9) == [Token(Number, "-.33")] + []
  {
    assert Scan(s, 9) == Step(Token(Number, "-.33"), 13) by { assert RunEnd(s, 10, Digit) == 10; assert RunEnd(s, 13, Digit) == 13; assert RunEnd(s, 12, Digit) == 13; assert RunEnd(s, 11, Digit) == 13; }
    Pops(s, 9, Token(Number, "-.33"), 13, []);
  }

  /** The stream from position 8 of a 13-character source ending in " -.33". */
  lemma NumberEdgesFrom8(s: string)
    requires |s| == 13 && s[8] == ' ' && s[9] == '-' && s[10] == '.' && s[11] == '3' && s[12] == '3'
    ensures Tokens(s, 8) == [Token(Whitespace, " ")] + ([Token(Number, "-.33")] + [])
  {
    NumberEdgesFrom9(s);
    assert Scan(s, 8) == Step(Token(Whitespace, " "), 9) by { assert RunEnd(s, 9, Space) == 9; }
    Pops(s, 8, Token(Whitespace, " "), 9, [Token(Number, "-.33")] + []);
  }

  /** The stream from position 6 of a 13-character source ending in ".6 -.33". */
  lemma NumberEdgesFrom6(s: string)
    requires |s| == 13 && s[6] == '.' && s[7] == '6' && s[8] == ' ' && s[9] == '-' && s[10] == '.' && s[11] == '3' && s[12] == '3'
    ensures Tokens(s, 6) == [Token(Number, ".6")] + ([Token(Whitespace, " ")] + ([Token(Number, "-.33")] + []))
  {
    NumberEdgesFrom8(s);
    assert Scan(s, 6) == Step(Token(Number, ".6"), 8) by { assert RunEnd(s, 8, Digit) == 8; assert RunEnd(s, 7, Digit) == 8; }
    Pops(s, 6, Token(Number, ".6"), 8, [Token(Whitespace, " ")] + ([Token(Number, "-.33")] + []));
  }

  /** `123.45.6 -.33`: a second dot starts a new Number; `-.` starts one too. */
  lemma NumberEdgesTokens(s: string)
    requires |s| == 13 && s[0] == '1' && s[1] == '2' && s[2] == '3' && s[3] == '.' && s[4] == '4' && s[5] == '5' && s[6] == '.' && s[7] == '6' && s[8] == ' ' && s[9] == '-' && s[10] == '.' && s[11] == '3' && s[12] == '3'
    ensures Tokens(s, 0) == [Token(Number, "123.45")] + ([Token(Number, ".6")] + ([Token(Whitespace, " ")] + ([Token(Number, "-.33")] + [])))
  {
    NumberEdgesFrom6(s);
    assert Scan(s, 0) == Step(Token(Number, "123.45"), 6) by { assert s[0..6] == "123.45"; assert RunEnd(s, 3, Digit) == 3; assert RunEnd(s, 2, Digit) == 3; assert RunEnd(s, 1, Digit) == 3; assert RunEnd(s, 6, Digit) == 6; assert RunEnd(s, 5, Digit) == 6; assert RunEnd(s, 4, Digit) == 6; }
    Pops(s, 0, Token(Number, "123.45"), 6, [Token(Number, ".6")] + ([Token(Whitespace, " ")] + ([Token(Number, "-.33")] + [])));
  }

  /** The stream from position 17 of a 19-character source ending in ".8". */
  lemma FractionsFrom17(s: string)
    requires |s| == 19 && s[17] == '.' && s[18] == '8'
    ensures Tokens(s, 17) == [Token(Number, ".8")] + []
  {
    assert Scan(s, 17) == Step(Token(Number, ".8"), 19) by { assert RunEnd(s, 19, Digit) == 19; assert RunEnd(s, 18, Digit) == 19; }
    Pops(s, 17, Token(Number, ".8"), 19, []);
  }

  /** The stream from position 16 of a 19-character source ending in " .8". */
  lemma FractionsFrom16(s: string)
    requires |s| == 19 && s[16] == ' ' && s[17] == '.' && s[18] == '8'
    ensures Tokens(s, 16) == [Token(Whitespace, " ")] + ([Token(Number, ".8")] + [])
  {
    FractionsFrom17(s);
    assert Scan(s, 16) == Step(Token(Whitespace, " "), 17) by { assert RunEnd(s, 17, Space) == 17; }
    Pops(s, 16, Token(Whitespace, " "), 17, [Token(Number, ".8")] + []);
  }

  /** The stream from position 14 of a 19-character source ending in "4. .8". */
  lemma FractionsFrom14(s: string)
    requires |s| == 19 && s[14] == '4' && s[15] == '.' && s[16] == ' ' && s[17] == '.' && s[18] == '8'
    ensures Tokens(s, 14) == [Token(Number, "4.")] + ([Token(Whitespace, " ")] + ([Token(Number, ".8")] + []))
  {
    FractionsFrom16(s);
    assert Scan(s, 14) == Step(Token(Number, "4."), 16) by { assert RunEnd(s, 15, Digit) == 15; assert RunEnd(s, 16, Digit) == 16; }
    Pops(s, 14, Token(Number, "4."), 16, [Token(Whitespace, " ")] + ([Token(Number, ".8")] + []));
  }

  /** The stream from position 13 of a 19-character source ending in " 4. .8". */
  lemma FractionsFrom13(s: string)
    requires |s| == 19 && s[13] == ' ' && s[14] == '4' && s[15] == '.' && s[16] == ' ' && s[17] == '.' && s[18] == '8'
    ensures Tokens(s, 13) == [Token(Whitespace, " ")] + ([Token(Number, "4.")] + ([Token(Whitespace, " ")] + ([Token(Number, ".8")] + [])))
  {
    FractionsFrom14(s);
    assert Scan(s, 13) == Step(Token(Whitespace, " "), 14) by { assert RunEnd(s, 14, Space) == 14; }
    Pops(s, 13, Token(Whitespace, " "), 14, [Token(Number, "4.")] + ([Token(Whitespace, " ")] + ([Token(Number, ".8")] + [])));
  }

  /** The stream from position 8 of a 19-character source ending in "-12.4 4. .8". */
  lemma FractionsFrom8(s: string)
    requires |s| == 19 && s[8] == '-' && s[9] == '1' && s[10] == '2' && s[11] == '.' && s[12] == '4' && s[13] == ' ' && s[14] == '4' && s[15] == '.' && s[16] == ' ' && s[17] == '.' && s[18] == '8'
    ensures Tokens(s, 8) == [Token(Number, "-12.4")] + ([Token(Whitespace, " ")] + ([Token(Number, "4.")] + ([Token(Whitespace, " ")] + ([Token(Number, ".8")] + []))))
  {
    FractionsFrom13(s);
    assert Scan(s, 8) == Step(Token(Number, "-12.4"), 13) by { assert s[8..13] == "-12.4"; assert RunEnd(s, 11, Digit) == 11; assert RunEnd(s, 10, Digit) == 11; assert RunEnd(s, 9, Digit) == 11; assert RunEnd(s, 13, Digit) == 13; assert RunEnd(s, 12, Digit) == 13; }
    Pops(s, 8, Token(Number, "-12.4"), 13, [Token(Whitespace, " ")] + ([Token(Number, "4.")] + ([Token(Whitespace, " ")] + ([Token(Number, ".8")] + []))));
  }

  /** The stream from position 7 of a 19-character source ending in " -12.4 4. .8". */
  lemma FractionsFrom7(s: string)
    requires |s| == 19 && s[7] == ' ' && s[8] == '-' && s[9] == '1' && s[10] == '2' && s[11] == '.' && s[12] == '4' && s[13] == ' ' && s[14] == '4' && s[15] == '.' && s[16] == ' ' && s[17] == '.' && s[18] == '8'
    ensures Tokens(s, 7) == [Token(Whitespace, " ")] + ([Token(Number, "-12.4")] + ([Token(Whitespace, " ")] + ([Token(Number, "4.")] + ([Token(Whitespace, " ")] + ([Token(Number, ".8")] + [])))))
  {
    FractionsFrom8(s);
    assert Scan(s, 7) == Step(Token(Whitespace, " "), 8) by { assert RunEnd(s, 8, Space) == 8; }
    Pops(s, 7, Token(Whitespace, " "), 8, [Token(Number, "-12.4")] + ([Token(Whitespace, " ")] + ([Token(Number, "4.")] + ([Token(Whitespace, " ")] + ([Token(Number, ".8")] + [])))));
  }

  /** `123.456 -12.4 4. .8`: a trailing dot and a leading dot both belong to the Number, and so does a leading `-`. */
  lemma FractionsTokens(s: string)
    requires |s| == 19 && s[0] == '1' && s[1] == '2' && s[2] == '3' && s[3] == '.' && s[4] == '4' && s[5] == '5' && s[6] == '6' && s[7] == ' ' && s[8] == '-' && s[9] == '1' && s[10] == '2' && s[11] == '.' && s[12] == '4' && s[13] == ' ' && s[14] == '4' && s[15] == '.' && s[16] == ' ' && s[17] == '.' && s[18] == '8'
    ensures Tokens(s, 0) == [Token(Number, "123.456")] + ([Token(Whitespace, " ")] + ([Token(Number, "-12.4")] + ([Token(Whitespace, " ")] + ([Token(Number, "4.")] + ([Token(Whitespace, " ")] + ([Token(Number, ".8")] + []))))))
  {
    FractionsFrom7(s);
    assert Scan(s, 0) == Step(Token(Number, "123.456"), 7) by { assert s[0..7] == "123.456"; assert RunEnd(s, 3, Digit) == 3; assert RunEnd(s, 2, Digit) == 3; assert RunEnd(s, 1, Digit) == 3; assert RunEnd(s, 7, Digit) == 7; assert RunEnd(s, 6, Digit) == 7; assert RunEnd(s, 5, Digit) == 7; assert RunEnd(s, 4, Digit) == 7; }
    Pops(s, 0, Token(Number, "123.456"), 7, [Token(Whitespace, " ")] + ([Token(Number, "-12.4")] + ([Token(Whitespace, " ")] + ([Token(Number, "4.")] + ([Token(Whitespace, " ")] + ([Token(Number, ".8")] + []))))));
  }

  /** The stream from position 2 of a 3-character source ending in ")". */
  lemma DashDotFrom2(s: string)
    requires |s| == 3 && s[2] == ')'
    ensures Tokens(s, 2) == [Token(RParen, ")")] + []
  {
    assert Scan(s, 2) == Step(Token(RParen, ")"), 3);
    Pops(s, 2, Token(RParen, ")"), 3, []);
  }

  /** `-.)`: a `-` and a `.` start a Number even when no digit follows them, so `-.` is a Number. */
  lemma DashDotTokens(s: string)
    requires |s| == 3 && s[0] == '-' && s[1] == '.' && s[2] == ')'
    ensures Tokens(s, 0) == [Token(Number, "-.")] + ([Token(RParen, ")")] + [])
  {
    DashDotFrom2(s);
    assert Scan(s, 0) == Step(Token(Number, "-."), 2) by { assert RunEnd(s, 1, Digit) == 1; assert RunEnd(s, 2, Digit) == 2; }
    Pops(s, 0, Token(Number, "-."), 2, [Token(RParen, ")")] + []);
  }

  /** The UnknownBody run from position 15 of a 21-character source ending in "g-else". */
  lemma BooleansRun15(s: string)
    requires |s| == 21 && s[15] == 'g' && s[16] == '-' && s[17] == 'e' && s[18] == 'l' && s[19] == 's' && s[20] == 'e'
    ensures RunEnd(s, 15, UnknownBody) == 21
  {
    assert RunEnd(s, 21, UnknownBody) == 21;
    assert RunEnd(s, 20, UnknownBody) == 21;
    assert RunEnd(s, 19, UnknownBody) == 21;
    assert RunEnd(s, 18, UnknownBody) == 21;
    assert RunEnd(s, 17, UnknownBody) == 21;
    assert RunEnd(s, 16, UnknownBody) == 21;
    assert RunEnd(s, 15, UnknownBody) == 21;
  }

  /** The UnknownBody run from position 9 of a 21-character source ending in "mething-else". */
  lemma BooleansRun9(s: string)
    requires |s| == 21 && s[9] == 'm' && s[10] == 'e' && s[11] == 't' && s[12] == 'h' && s[13] == 'i' && s[14] == 'n' && s[15] == 'g' && RunEnd(s, 15, UnknownBody) == 21
    ensures RunEnd(s, 9, UnknownBody) == 21
  {
    assert RunEnd(s, 14, UnknownBody) == 21;
    assert RunEnd(s, 13, UnknownBody) == 21;
    assert RunEnd(s, 12, UnknownBody) == 21;
    assert RunEnd(s, 11, UnknownBody) == 21;
    assert RunEnd(s, 10, UnknownBody) == 21;
    assert RunEnd(s, 9, UnknownBody) == 21;
  }

  /** The UnknownBody run from position 7 of a 21-character source ending in "something-else". */
  lemma BooleansRun7(s: string)
    requires |s| == 21 && s[7] == 's' && s[8] == 'o' && s[9] == 'm' && RunEnd(s, 9, UnknownBody) == 21
    ensures RunEnd(s, 7, UnknownBody) == 21
  {
    assert RunEnd(s, 8, UnknownBody) == 21;
    assert RunEnd(s, 7, UnknownBody) == 21;
  }

  /** The stream from position 6 of a 21-character source ending in "#something-else". */
  lemma BooleansFrom6(s: string)
    requires |s| == 21 && s[6] == '#' && s[7] == 's' && s[8] == 'o' && s[9] == 'm' && s[10] == 'e' && s[11] == 't' && s[12] == 'h' && s[13] == 'i' && s[14] == 'n' && s[15] == 'g' && s[16] == '-' && s[17] == 'e' && s[18] == 'l' && s[19] == 's' && s[20] == 'e'
    ensures Tokens(s, 6) == [Token(Unknown, "#something-else")] + []
  {
    assert Scan(s, 6) == Step(Token(Unknown, "#something-else"), 21) by { assert s[6..21] == "#something-else"; BooleansRun15(s); BooleansRun9(s); BooleansRun7(s); }
    Pops(s, 6, Token(Unknown, "#something-else"), 21, []);
  }

  /** The stream from position 5 of a 21-character source ending in " #something-else". */
  lemma BooleansFrom5(s: string)
    requires |s| == 21 && s[5] == ' ' && s[6] == '#' && s[7] == 's' && s[8] == 'o' && s[9] == 'm' && s[10] == 'e' && s[11] == 't' && s[12] == 'h' && s[13] == 'i' && s[14] == 'n' && s[15] == 'g' && s[16] == '-' && s[17] == 'e' && s[18] == 'l' && s[19] == 's' && s[20] == 'e'
    ensures Tokens(s, 5) == [Token(Whitespace, " ")] + ([Token(Unknown, "#something-else")] + [])
  {
    BooleansFrom6(s);
    assert Scan(s, 5) == Step(Token(Whitespace, " "), 6) by { assert RunEnd(s, 6, Space) == 6; }
    Pops(s, 5, Token(Whitespace, " "), 6, [Token(Unknown, "#something-else")] + []);
  }

  /** The stream from position 3 of a 21-character source ending in "#f #something-else". */
  lemma BooleansFrom3(s: string)
    requires |s| == 21 && s[3] == '#' && s[4] == 'f' && s[5] == ' ' && s[6] == '#' && s[7] == 's' && s[8] == 'o' && s[9] == 'm' && s[10] == 'e' && s[11] == 't' && s[12] == 'h' && s[13] == 'i' && s[14] == 'n' && s[15] == 'g' && s[16] == '-' && s[17] == 'e' && s[18] == 'l' && s[19] == 's' && s[20] == 'e'
    ensures Tokens(s, 3) == [Token(Boolean, "#f")] + ([Token(Whitespace, " ")] + ([Token(Unknown, "#something-else")] + []))
  {
    BooleansFrom5(s);
    assert Scan(s, 3) == Step(Token(Boolean, "#f"), 5);
    Pops(s, 3, Token(Boolean, "#f"), 5, [Token(Whitespace, " ")] + ([Token(Unknown, "#something-else")] + []));
  }

  /** The stream from position 2 of a 21-character source ending in " #f #something-else". */
  lemma BooleansFrom2(s: string)
    requires |s| == 21 && s[2] == ' ' && s[3] == '#' && s[4] == 'f' && s[5] == ' ' && s[6] == '#' && s[7] == 's' && s[8] == 'o' && s[9] == 'm' && s[10] == 'e' && s[11] == 't' && s[12] == 'h' && s[13] == 'i' && s[14] == 'n' && s[15] == 'g' && s[16] == '-' && s[17] == 'e' && s[18] == 'l' && s[19] == 's' && s[20] == 'e'
    ensures Tokens(s, 2) == [Token(Whitespace, " ")] + ([Token(Boolean, "#f")] + ([Token(Whitespace, " ")] + ([Token(Unknown, "#something-else")] + [])))
  {
    BooleansFrom3(s);
    assert Scan(s, 2) == Step(Token(Whitespace, " "), 3) by { assert RunEnd(s, 3, Space) == 3; }
    Pops(s, 2, Token(Whitespace, " "), 3, [Token(Boolean, "#f")] + ([Token(Whitespace, " ")] + ([Token(Unknown, "#something-else")] + [])));
  }

  /** `#t #f #something-else`: two Booleans; any other `#` starts an Unknown run. */
  lemma BooleansTokens(s: string)
    requires |s| == 21 && s[0] == '#' && s[1] == 't' && s[2] == ' ' && s[3] == '#' && s[4] == 'f' && s[5] == ' ' && s[6] == '#' && s[7] == 's' && s[8] == 'o' && s[9] == 'm' && s[10] == 'e' && s[11] == 't' && s[12] == 'h' && s[13] == 'i' && s[14] == 'n' && s[15] == 'g' && s[16] == '-' && s[17] == 'e' && s[18] == 'l' && s[19] == 's' && s[20] == 'e'
    ensures Tokens(s, 0) == [Token(Boolean, "#t")] + ([Token(Whitespace, " ")] + ([Token(Boolean, "#f")] + ([Token(Whitespace, " ")] + ([Token(Unknown, "#something-else")] + []))))
  {
    BooleansFrom2(s);
    assert Scan(s, 0) == Step(Token(Boolean, "#t"), 2);
    Pops(s, 0, Token(Boolean, "#t"), 2, [Token(Whitespace, " ")] + ([Token(Boolean, "#f")] + ([Token(Whitespace, " ")] + ([Token(Unknown, "#something-else")] + []))));
  }

  /** The stream from position 31 of a 33-character source ending in "Y!". */
  lemma SymbolsFrom31(s: string)
    requires |s| == 33 && s[31] == 'Y' && s[32] == '!'
    ensures Tokens(s, 31) == [Token(Symbol, "Y!")] + []
  {
    assert Scan(s, 31) == Step(Token(Symbol, "Y!"), 33) by { assert RunEnd(s, 33, SymbolTail) == 33; assert RunEnd(s, 32, SymbolTail) == 33; }
    Pops(s, 31, Token(Symbol, "Y!"), 33, []);
  }

  /** The stream from position 30 of a 33-character source ending in " Y!". */
  lemma SymbolsFrom30(s: string)
    requires |s| == 33 && s[30] == ' ' && s[31] == 'Y' && s[32] == '!'
    ensures Tokens(s, 30) == [Token(Whitespace, " ")] + ([Token(Symbol, "Y!")] + [])
  {
    SymbolsFrom31(s);
    assert Scan(s, 30) == Step(Token(Whitespace, " "), 31) by { assert RunEnd(s, 31, Space) == 31; }
    Pops(s, 30, Token(Whitespace, " "), 31, [Token(Symbol, "Y!")] + []);
  }

  /** The stream from position 26 of a 33-character source ending in ":<>: Y!". */
  lemma SymbolsFrom26(s: string)
    requires |s| == 33 && s[26] == ':' && s[27] == '<' && s[28] == '>' && s[29] == ':' && s[30] == ' ' && s[31] == 'Y' && s[32] == '!'
    ensures Tokens(s, 26) == [Token(Symbol, ":<>:")] + ([Token(Whitespace, " ")] + ([Token(Symbol, "Y!")] + []))
  {
    SymbolsFrom30(s);
    assert Scan(s, 26) == Step(Token(Symbol, ":<>:"), 30) by { assert RunEnd(s, 30, SymbolTail) == 30; assert RunEnd(s, 29, SymbolTail) == 30; assert RunEnd(s, 28, SymbolTail) == 30; assert RunEnd(s, 27, SymbolTail) == 30; }
    Pops(s, 26, Token(Symbol, ":<>:"), 30, [Token(Whitespace, " ")] + ([Token(Symbol, "Y!")] + []));
  }

  /** The stream from position 25 of a 33-character source ending in " :<>: Y!". */
  lemma SymbolsFrom25(s: string)
    requires |s| == 33 && s[25] == ' ' && s[26] == ':' && s[27] == '<' && s[28] == '>' && s[29] == ':' && s[30] == ' ' && s[31] == 'Y' && s[32] == '!'
    ensures Tokens(s, 25) == [Token(Whitespace, " ")] + ([Token(Symbol, ":<>:")] + ([Token(Whitespace, " ")] + ([Token(Symbol, "Y!")] + [])))
  {
    SymbolsFrom26(s);
    assert Scan(s, 25) == Step(Token(Whitespace, " "), 26) by { assert RunEnd(s, 26, Space) == 26; }
    Pops(s, 25, Token(Whitespace, " "), 26, [Token(Symbol, ":<>:")] + ([Token(Whitespace, " ")] + ([Token(Symbol, "Y!")] + [])));
  }

  /** The stream from position 22 of a 33-character source ending in ">>= :<>: Y!". */
  lemma SymbolsFrom22(s: string)
    requires |s| == 33 && s[22] == '>' && s[23] == '>' && s[24] == '=' && s[25] == ' ' && s[26] == ':' && s[27] == '<' && s[28] == '>' && s[29] == ':' && s[30] == ' ' && s[31] == 'Y' && s[32] == '!'
    ensures Tokens(s, 22) == [Token(Symbol, ">>=")] + ([Token(Whitespace, " ")] + ([Token(Symbol, ":<>:")] + ([Token(Whitespace, " ")] + ([Token(Symbol, "Y!")] + []))))
  {
    SymbolsFrom25(s);
    assert Scan(s, 22) == Step(Token(Symbol, ">>="), 25) by { assert RunEnd(s, 25, SymbolTail) == 25; assert RunEnd(s, 24, SymbolTail) == 25; assert RunEnd(s, 23, SymbolTail) == 25; }
    Pops(s, 22, Token(Symbol, ">>="), 25, [Token(Whitespace, " ")] + ([Token(Symbol, ":<>:")] + ([Token(Whitespace, " ")] + ([Token(Symbol, "Y!")] + []))));
  }

  /** The stream from position 21 of a 33-character source ending in " >>= :<>: Y!". */
  lemma SymbolsFrom21(s: string)
    requires |s| == 33 && s[21] == ' ' && s[22] == '>' && s[23] == '>' && s[24] == '=' && s[25] == ' ' && s[26] == ':' && s[27] == '<' && s[28] == '>' && s[29] == ':' && s[30] == ' ' && s[31] == 'Y' && s[32] == '!'
    ensures Tokens(s, 21) == [Token(Whitespace, " ")] + ([Token(Symbol, ">>=")] + ([Token(Whitespace, " ")] + ([Token(Symbol, ":<>:")] + ([Token(Whitespace, " ")] + ([Token(Symbol, "Y!")] + [])))))
  {
    SymbolsFrom22(s);
    assert Scan(s, 21) == Step(Token(Whitespace, " "), 22) by { assert RunEnd(s, 22, Space) == 22; }
    Pops(s, 21, Token(Whitespace, " "), 22, [Token(Symbol, ">>=")] + ([Token(Whitespace, " ")] + ([Token(Symbol, ":<>:")] + ([Token(Whitespace, " ")] + ([Token(Symbol, "Y!")] + [])))));
  }

  /** The SymbolTail run from position 15 of a 33-character source ending in "-words >>= :<>: Y!". */
  lemma SymbolsRun15(s: string)
    requires |s| == 33 && s[15] == '-' && s[16] == 'w' && s[17] == 'o' && s[18] == 'r' && s[19] == 'd' && s[20] == 's' && s[21] == ' '
    ensures RunEnd(s, 15, SymbolTail) == 21
  {
    assert RunEnd(s, 21, SymbolTail) == 21;
    assert RunEnd(s, 20, SymbolTail) == 21;
    assert RunEnd(s, 19, SymbolTail) == 21;
    assert RunEnd(s, 18, SymbolTail) == 21;
    assert RunEnd(s, 17, SymbolTail) == 21;
    assert RunEnd(s, 16, SymbolTail) == 21;
    assert RunEnd(s, 15, SymbolTail) == 21;
  }

  /** The SymbolTail run from position 13 of a 33-character source ending in "wo-words >>= :<>: Y!". */
  lemma SymbolsRun13(s: string)
    requires |s| == 33 && s[13] == 'w' && s[14] == 'o' && s[15] == '-' && RunEnd(s, 15, SymbolTail) == 21
    ensures RunEnd(s, 13, SymbolTail) == 21
  {
    assert RunEnd(s, 14, SymbolTail) == 21;
    assert RunEnd(s, 13, SymbolTail) == 21;
  }

  /** The stream from position 12 of a 33-character source ending in "two-words >>= :<>: Y!". */
  lemma SymbolsFrom12(s: string)
    requires |s| == 33 && s[12] == 't' && s[13] == 'w' && s[14] == 'o' && s[15] == '-' && s[16] == 'w' && s[17] == 'o' && s[18] == 'r' && s[19] == 'd' && s[20] == 's' && s[21] == ' ' && s[22] == '>' && s[23] == '>' && s[24] == '=' && s[25] == ' ' && s[26] == ':' && s[27] == '<' && s[28] == '>' && s[29] == ':' && s[30] == ' ' && s[31] == 'Y' && s[32] == '!'
    ensures Tokens(s, 12) == [Token(Symbol, "two-words")] + ([Token(Whitespace, " ")] + ([Token(Symbol, ">>=")] + ([Token(Whitespace, " ")] + ([Token(Symbol, ":<>:")] + ([Token(Whitespace, " ")] + ([Token(Symbol, "Y!")] + []))))))
  {
    SymbolsFrom21(s);
    assert Scan(s, 12) == Step(Token(Symbol, "two-words"), 21) by { assert s[12..21] == "two-words"; SymbolsRun15(s); SymbolsRun13(s); }
    Pops(s, 12, Token(Symbol, "two-words"), 21, [Token(Whitespace, " ")] + ([Token(Symbol, ">>=")] + ([Token(Whitespace, " ")] + ([Token(Symbol, ":<>:")] + ([Token(Whitespace, " ")] + ([Token(Symbol, "Y!")] + []))))));
  }

  /** The stream from position 11 of a 33-character source ending in " two-words >>= :<>: Y!". */
  lemma SymbolsFrom11(s: string)
    requires |s| == 33 && s[11] == ' ' && s[12] == 't' && s[13] == 'w' && s[14] == 'o' && s[15] == '-' && s[16] == 'w' && s[17] == 'o' && s[18] == 'r' && s[19] == 'd' && s[20] == 's' && s[21] == ' ' && s[22] == '>' && s[23] == '>' && s[24] == '=' && s[25] == ' ' && s[26] == ':' && s[27] == '<' && s[28] == '>' && s[29] == ':' && s[30] == ' ' && s[31] == 'Y' && s[32] == '!'
    ensures Tokens(s, 11) == [Token(Whitespace, " ")] + ([Token(Symbol, "two-words")] + ([Token(Whitespace, " ")] + ([Token(Symbol, ">>=")] + ([Token(Whitespace, " ")] + ([Token(Symbol, ":<>:")] + ([Token(Whitespace, " ")] + ([Token(Symbol, "Y!")] + [])))))))
  {
    SymbolsFrom12(s);
    assert Scan(s, 11) == Step(Token(Whitespace, " "), 12) by { assert RunEnd(s, 12, Space) == 12; }
    Pops(s, 11, Token(Whitespace, " "), 12, [Token(Symbol, "two-words")] + ([Token(Whitespace, " ")] + ([Token(Symbol, ">>=")] + ([Token(Whitespace, " ")] + ([Token(Symbol, ":<>:")] + ([Token(Whitespace, " ")] + ([Token(Symbol, "Y!")] + [])))))));
  }

  /** The stream from position 10 of a 33-character source ending in "* two-words >>= :<>: Y!". */
  lemma SymbolsFrom10(s: string)
    requires |s| == 33 && s[10] == '*' && s[11] == ' ' && s[12] == 't' && s[13] == 'w' && s[14] == 'o' && s[15] == '-' && s[16] == 'w' && s[17] == 'o' && s[18] == 'r' && s[19] == 'd' && s[20] == 's' && s[21] == ' ' && s[22] == '>' && s[23] == '>' && s[24] == '=' && s[25] == ' ' && s[26] == ':' && s[27] == '<' && s[28] == '>' && s[29] == ':' && s[30] == ' ' && s[31] == 'Y' && s[32] == '!'
    ensures Tokens(s, 10) == [Token(Symbol, "*")] + ([Token(Whitespace, " ")] + ([Token(Symbol, "two-words")] + ([Token(Whitespace, " ")] + ([Token(Symbol, ">>=")] + ([Token(Whitespace, " ")] + ([Token(Symbol, ":<>:")] + ([Token(Whitespace, " ")] + ([Token(Symbol, "Y!")] + []))))))))
  {
    SymbolsFrom11(s);
    assert Scan(s, 10) == Step(Token(Symbol, "*"), 11) by { assert RunEnd(s, 11, SymbolTail) == 11; }
    Pops(s, 10, Token(Symbol, "*"), 11, [Token(Whitespace, " ")] + ([Token(Symbol, "two-words")] + ([Token(Whitespace, " ")] + ([Token(Symbol, ">>=")] + ([Token(Whitespace, " ")] + ([Token(Symbol, ":<>:")] + ([Token(Whitespace, " ")] + ([Token(Symbol, "Y!")] + []))))))));
  }

  /** The stream from position 9 of a 33-character source ending in " * two-words >>= :<>: Y!". */
  lemma SymbolsFrom9(s: string)
    requires |s| == 33 && s[9] == ' ' && s[10] == '*' && s[11] == ' ' && s[12] == 't' && s[13] == 'w' && s[14] == 'o' && s[15] == '-' && s[16] == 'w' && s[17] == 'o' && s[18] == 'r' && s[19] == 'd' && s[20] == 's' && s[21] == ' ' && s[22] == '>' && s[23] == '>' && s[24] == '=' && s[25] == ' ' && s[26] == ':' && s[27] == '<' && s[28] == '>' && s[29] == ':' && s[30] == ' ' && s[31] == 'Y' && s[32] == '!'
    ensures Tokens(s, 9) == [Token(Whitespace, " ")] + ([Token(Symbol, "*")] + ([Token(Whitespace, " ")] + ([Token(Symbol, "two-words")] + ([Token(Whitespace, " ")] + ([Token(Symbol, ">>=")] + ([Token(Whitespace, " ")] + ([Token(Symbol, ":<>:")] + ([Token(Whitespace, " ")] + ([Token(Symbol, "Y!")] + [])))))))))
  {
    SymbolsFrom10(s);
    assert Scan(s, 9) == Step(Token(Whitespace, " "), 10) by { assert RunEnd(s, 10, Space) == 10; }
    Pops(s, 9, Token(Whitespace, " "), 10, [Token(Symbol, "*")] + ([Token(Whitespace, " ")] + ([Token(Symbol, "two-words")] + ([Token(Whitespace, " ")] + ([Token(Symbol, ">>=")] + ([Token(Whitespace, " ")] + ([Token(Symbol, ":<>:")] + ([Token(Whitespace, " ")] + ([Token(Symbol, "Y!")] + [])))))))));
  }

  /** The stream from position 7 of a 33-character source ending in "b1 * two-words >>= :<>: Y!". */
  lemma SymbolsFrom7(s: string)
    requires |s| == 33 && s[7] == 'b' && s[8] == '1' && s[9] == ' ' && s[10] == '*' && s[11] == ' ' && s[12] == 't' && s[13] == 'w' && s[14] == 'o' && s[15] == '-' && s[16] == 'w' && s[17] == 'o' && s[18] == 'r' && s[19] == 'd' && s[20] == 's' && s[21] == ' ' && s[22] == '>' && s[23] == '>' && s[24] == '=' && s[25] == ' ' && s[26] == ':' && s[27] == '<' && s[28] == '>' && s[29] == ':' && s[30] == ' ' && s[31] == 'Y' && s[32] == '!'
    ensures Tokens(s, 7) == [Token(Symbol, "b1")] + ([Token(Whitespace, " ")] + ([Token(Symbol, "*")] + ([Token(Whitespace, " ")] + ([Token(Symbol, "two-words")] + ([Token(Whitespace, " ")] + ([Token(Symbol, ">>=")] + ([Token(Whitespace, " ")] + ([Token(Symbol, ":<>:")] + ([Token(Whitespace, " ")] + ([Token(Symbol, "Y!")] + []))))))))))
  {
    SymbolsFrom9(s);
    assert Scan(s, 7) == Step(Token(Symbol, "b1"), 9) by { assert RunEnd(s, 9, SymbolTail) == 9; assert RunEnd(s, 8, SymbolTail) == 9; }
    Pops(s, 7, Token(Symbol, "b1"), 9, [Token(Whitespace, " ")] + ([Token(Symbol, "*")] + ([Token(Whitespace, " ")] + ([Token(Symbol, "two-words")] + ([Token(Whitespace, " ")] + ([Token(Symbol, ">>=")] + ([Token(Whitespace, " ")] + ([Token(Symbol, ":<>:")] + ([Token(Whitespace, " ")] + ([Token(Symbol, "Y!")] + []))))))))));
  }

  /** The stream from position 6 of a 33-character source ending in " b1 * two-words >>= :<>: Y!". */
  lemma SymbolsFrom6(s: string)
    requires |s| == 33 && s[6] == ' ' && s[7] == 'b' && s[8] == '1' && s[9] == ' ' && s[10] == '*' && s[11] == ' ' && s[12] == 't' && s[13] == 'w' && s[14] == 'o' && s[15] == '-' && s[16] == 'w' && s[17] == 'o' && s[18] == 'r' && s[19] == 'd' && s[20] == 's' && s[21] == ' ' && s[22] == '>' && s[23] == '>' && s[24] == '=' && s[25] == ' ' && s[26] == ':' && s[27] == '<' && s[28] == '>' && s[29] == ':' && s[30] == ' ' && s[31] == 'Y' && s[32] == '!'
    ensures Tokens(s, 6) == [Token(Whitespace, " ")] + ([Token(Symbol, "b1")] + ([Token(Whitespace, " ")] + ([Token(Symbol, "*")] + ([Token(Whitespace, " ")] + ([Token(Symbol, "two-words")] + ([Token(Whitespace, " ")] + ([Token(Symbol, ">>=")] + ([Token(Whitespace, " ")] + ([Token(Symbol, ":<>:")] + ([Token(Whitespace, " ")] + ([Token(Symbol, "Y!")] + [])))))))))))
  {
    SymbolsFrom7(s);
    assert Scan(s, 6) == Step(Token(Whitespace, " "), 7) by { assert RunEnd(s, 7, Space) == 7; }
    Pops(s, 6, Token(Whitespace, " "), 7, [Token(Symbol, "b1")] + ([Token(Whitespace, " ")] + ([Token(Symbol, "*")] + ([Token(Whitespace, " ")] + ([Token(Symbol, "two-words")] + ([Token(Whitespace, " ")] + ([Token(Symbol, ">>=")] + ([Token(Whitespace, " ")] + ([Token(Symbol, ":<>:")] + ([Token(Whitespace, " ")] + ([Token(Symbol, "Y!")] + [])))))))))));
  }

  /** `simple b1 * two-words >>= :<>: Y!`: letters, digits and operator characters all make Symbols. */
  lemma SymbolsTokens(s: string)
    requires |s| == 33 && s[0] == 's' && s[1] == 'i' && s[2] == 'm' && s[3] == 'p' && s[4] == 'l' && s[5] == 'e' && s[6] == ' ' && s[7] == 'b' && s[8] == '1' && s[9] == ' ' && s[10] == '*' && s[11] == ' ' && s[12] == 't' && s[13] == 'w' && s[14] == 'o' && s[15] == '-' && s[16] == 'w' && s[17] == 'o' && s[18] == 'r' && s[19] == 'd' && s[20] == 's' && s[21] == ' ' && s[22] == '>' && s[23] == '>' && s[24] == '=' && s[25] == ' ' && s[26] == ':' && s[27] == '<' && s[28] == '>' && s[29] == ':' && s[30] == ' ' && s[31] == 'Y' && s[32] == '!'
    ensures Tokens(s, 0) == [Token(Symbol, "simple")] + ([Token(Whitespace, " ")] + ([Token(Symbol, "b1")] + ([Token(Whitespace, " ")] + ([Token(Symbol, "*")] + ([Token(Whitespace, " ")] + ([Token(Symbol, "two-words")] + ([Token(Whitespace, " ")] + ([Token(Symbol, ">>=")] + ([Token(Whitespace, " ")] + ([Token(Symbol, ":<>:")] + ([Token(Whitespace, " ")] + ([Token(Symbol, "Y!")] + []))))))))))))
  {
    SymbolsFrom6(s);
    assert Scan(s, 0) == Step(Token(Symbol, "simple"), 6) by { assert s[0..6] == "simple"; assert RunEnd(s, 6, SymbolTail) == 6; assert RunEnd(s, 5, SymbolTail) == 6; assert RunEnd(s, 4, SymbolTail) == 6; assert RunEnd(s, 3, SymbolTail) == 6; assert RunEnd(s, 2, SymbolTail) == 6; assert RunEnd(s, 1, SymbolTail) == 6; }
    Pops(s, 0, Token(Symbol, "simple"), 6, [Token(Whitespace, " ")] + ([Token(Symbol, "b1")] + ([Token(Whitespace, " ")] + ([Token(Symbol, "*")] + ([Token(Whitespace, " ")] + ([Token(Symbol, "two-words")] + ([Token(Whitespace, " ")] + ([Token(Symbol, ">>=")] + ([Token(Whitespace, " ")] + ([Token(Symbol, ":<>:")] + ([Token(Whitespace, " ")] + ([Token(Symbol, "Y!")] + []))))))))))));
  }

  /** The CommentBody run from position 32 of a 38-character source ending in "omment". */
  lemma TriviaRun32(s: string)
    requires |s| == 38 && s[32] == 'o' && s[33] == 'm' && s[34] == 'm' && s[35] == 'e' && s[36] == 'n' && s[37] == 't'
    ensures RunEnd(s, 32, CommentBody) == 38
  {
    assert RunEnd(s, 38, CommentBody) == 38;
    assert RunEnd(s, 37, CommentBody) == 38;
    assert RunEnd(s, 36, CommentBody) == 38;
    assert RunEnd(s, 35, CommentBody) == 38;
    assert RunEnd(s, 34, CommentBody) == 38;
    assert RunEnd(s, 33, CommentBody) == 38;
    assert RunEnd(s, 32, CommentBody) == 38;
  }

  /** The CommentBody run from position 26 of a 38-character source ending in "ther comment". */
  lemma TriviaRun26(s: string)
    requires |s| == 38 && s[26] == 't' && s[27] == 'h' && s[28] == 'e' && s[29] == 'r' && s[30] == ' ' && s[31] == 'c' && s[32] == 'o' && RunEnd(s, 32, CommentBody) == 38
    ensures RunEnd(s, 26, CommentBody) == 38
  {
    assert RunEnd(s, 31, CommentBody) == 38;
    assert RunEnd(s, 30, CommentBody) == 38;
    assert RunEnd(s, 29, CommentBody) == 38;
    assert RunEnd(s, 28, CommentBody) == 38;
    assert RunEnd(s, 27, CommentBody) == 38;
    assert RunEnd(s, 26, CommentBody) == 38;
  }

  /** The CommentBody run from position 20 of a 38-character source ending in ";; Another comment". */
  lemma TriviaRun20(s: string)
    requires |s| == 38 && s[20] == ';' && s[21] == ';' && s[22] == ' ' && s[23] == 'A' && s[24] == 'n' && s[25] == 'o' && s[26] == 't' && RunEnd(s, 26, CommentBody) == 38
    ensures RunEnd(s, 20, CommentBody) == 38
  {
    assert RunEnd(s, 25, CommentBody) == 38;
    assert RunEnd(s, 24, CommentBody) == 38;
    assert RunEnd(s, 23, CommentBody) == 38;
    assert RunEnd(s, 22, CommentBody) == 38;
    assert RunEnd(s, 21, CommentBody) == 38;
    assert RunEnd(s, 20, CommentBody) == 38;
  }

  /** The CommentBody run from position 19 of a 38-character source ending in ";;; Another comment". */
  lemma TriviaRun19(s: string)
    requires |s| == 38 && s[19] == ';' && s[20] == ';' && RunEnd(s, 20, CommentBody) == 38
    ensures RunEnd(s, 19, CommentBody) == 38
  {
    assert RunEnd(s, 19, CommentBody) == 38;
  }

  /** The stream from position 18 of a 38-character source ending in ";;;; Another comment". */
  lemma TriviaFrom18(s: string)
    requires |s| == 38 && s[18] == ';' && s[19] == ';' && s[20] == ';' && s[21] == ';' && s[22] == ' ' && s[23] == 'A' && s[24] == 'n' && s[25] == 'o' && s[26] == 't' && s[27] == 'h' && s[28] == 'e' && s[29] == 'r' && s[30] == ' ' && s[31] == 'c' && s[32] == 'o' && s[33] == 'm' && s[34] == 'm' && s[35] == 'e' && s[36] == 'n' && s[37] == 't'
    ensures Tokens(s, 18) == [Token(LineComment, ";;;; Another comment")] + []
  {
    assert Scan(s, 18) == Step(Token(LineComment, ";;;; Another comment"), 38) by { assert s[18..38] == ";;;; Another comment"; TriviaRun32(s); TriviaRun26(s); TriviaRun20(s); TriviaRun19(s); }
    Pops(s, 18, Token(LineComment, ";;;; Another comment"), 38, []);
  }

  /** The stream from position 17 of a 38-character source ending in "\n;;;; Another comment". */
  lemma TriviaFrom17(s: string)
    requires |s| == 38 && s[17] == '\n' && s[18] == ';' && s[19] == ';' && s[20] == ';' && s[21] == ';' && s[22] == ' ' && s[23] == 'A' && s[24] == 'n' && s[25] == 'o' && s[26] == 't' && s[27] == 'h' && s[28] == 'e' && s[29] == 'r' && s[30] == ' ' && s[31] == 'c' && s[32] == 'o' && s[33] == 'm' && s[34] == 'm' && s[35] == 'e' && s[36] == 'n' && s[37] == 't'
    ensures Tokens(s, 17) == [Token(Whitespace, "\n")] + ([Token(LineComment, ";;;; Another comment")] + [])
  {
    TriviaFrom18(s);
    assert Scan(s, 17) == Step(Token(Whitespace, "\n"), 18) by { assert RunEnd(s, 18, Space) == 18; }
    Pops(s, 17, Token(Whitespace, "\n"), 18, [Token(LineComment, ";;;; Another comment")] + []);
  }

  /** The CommentBody run from position 11 of a 38-character source ending in "omment\n;;;; Another comment". */
  lemma TriviaRun11(s: string)
    requires |s| == 38 && s[11] == 'o' && s[12] == 'm' && s[13] == 'm' && s[14] == 'e' && s[15] == 'n' && s[16] == 't' && s[17] == '\n'
    ensures RunEnd(s, 11, CommentBody) == 17
  {
    assert RunEnd(s, 17, CommentBody) == 17;
    assert RunEnd(s, 16, CommentBody) == 17;
    assert RunEnd(s, 15, CommentBody) == 17;
    assert RunEnd(s, 14, CommentBody) == 17;
    assert RunEnd(s, 13, CommentBody) == 17;
    assert RunEnd(s, 12, CommentBody) == 17;
    assert RunEnd(s, 11, CommentBody) == 17;
  }

  /** The CommentBody run from position 6 of a 38-character source ending in "; A comment\n;;;; Another comment". */
  lemma TriviaRun6(s: string)
    requires |s| == 38 && s[6] == ';' && s[7] == ' ' && s[8] == 'A' && s[9] == ' ' && s[10] == 'c' && s[11] == 'o' && RunEnd(s, 11, CommentBody) == 17
    ensures RunEnd(s, 6, CommentBody) == 17
  {
    assert RunEnd(s, 10, CommentBody) == 17;
    assert RunEnd(s, 9, CommentBody) == 17;
    assert RunEnd(s, 8, CommentBody) == 17;
    assert RunEnd(s, 7, CommentBody) == 17;
    assert RunEnd(s, 6, CommentBody) == 17;
  }

  /** The stream from position 5 of a 38-character source ending in ";; A comment\n;;;; Another comment". */
  lemma TriviaFrom5(s: string)
    requires |s| == 38 && s[5] == ';' && s[6] == ';' && s[7] == ' ' && s[8] == 'A' && s[9] == ' ' && s[10] == 'c' && s[11] == 'o' && s[12] == 'm' && s[13] == 'm' && s[14] == 'e' && s[15] == 'n' && s[16] == 't' && s[17] == '\n' && s[18] == ';' && s[19] == ';' && s[20] == ';' && s[21] == ';' && s[22] == ' ' && s[23] == 'A' && s[24] == 'n' && s[25] == 'o' && s[26] == 't' && s[27] == 'h' && s[28] == 'e' && s[29] == 'r' && s[30] == ' ' && s[31] == 'c' && s[32] == 'o' && s[33] == 'm' && s[34] == 'm' && s[35] == 'e' && s[36] == 'n' && s[37] == 't'
    ensures Tokens(s, 5) == [Token(LineComment, ";; A comment")] + ([Token(Whitespace, "\n")] + ([Token(LineComment, ";;;; Another comment")] + []))
  {
    TriviaFrom17(s);
    assert Scan(s, 5) == Step(Token(LineComment, ";; A comment"), 17) by { assert s[5..17] == ";; A comment"; TriviaRun11(s); TriviaRun6(s); }
    Pops(s, 5, Token(LineComment, ";; A comment"), 17, [Token(Whitespace, "\n")] + ([Token(LineComment, ";;;; Another comment")] + []));
  }

  /** `     ;; A comment`, a newline and `;;;; Another comment`: runs of whitespace, and comments up to the line end. */
  lemma TriviaTokens(s: string)
    requires |s| == 38 && s[0] == ' ' && s[1] == ' ' && s[2] == ' ' && s[3] == ' ' && s[4] == ' ' && s[5] == ';' && s[6] == ';' && s[7] == ' ' && s[8] == 'A' && s[9] == ' ' && s[10] == 'c' && s[11] == 'o' && s[12] == 'm' && s[13] == 'm' && s[14] == 'e' && s[15] == 'n' && s[16] == 't' && s[17] == '\n' && s[18] == ';' && s[19] == ';' && s[20] == ';' && s[21] == ';' && s[22] == ' ' && s[23] == 'A' && s[24] == 'n' && s[25] == 'o' && s[26] == 't' && s[27] == 'h' && s[28] == 'e' && s[29] == 'r' && s[30] == ' ' && s[31] == 'c' && s[32] == 'o' && s[33] == 'm' && s[34] == 'm' && s[35] == 'e' && s[36] == 'n' && s[37] == 't'
    ensures Tokens(s, 0) == [Token(Whitespace, "     ")] + ([Token(LineComment, ";; A comment")] + ([Token(Whitespace, "\n")] + ([Token(LineComment, ";;;; Another comment")] + [])))
  {
    TriviaFrom5(s);
    assert Scan(s, 0) == Step(Token(Whitespace, "     "), 5) by { assert s[0..5] == "     "; assert RunEnd(s, 5, Space) == 5; assert RunEnd(s, 4, Space) == 5; assert RunEnd(s, 3, Space) == 5; assert RunEnd(s, 2, Space) == 5; assert RunEnd(s, 1, Space) == 5; }
    Pops(s, 0, Token(Whitespace, "     "), 5, [Token(LineComment, ";; A comment")] + ([Token(Whitespace, "\n")] + ([Token(LineComment, ";;;; Another comment")] + [])));
  }
}
