/**
 * Worked inputs for the reader. Each `...Stream` lemma states what
 * `parseFile` makes of a token stream of a given shape, for any tokens of
 * those kinds; each source-level lemma takes the tokens of a short source
 * from `LexerExamples` and applies it. The step lemmas first take those
 * calculations one parser routine at a time.
 */
module ReaderExamples {
  import opened Wrappers
  import opened Lexing
  import opened Exprs
  import opened Parsing
  import opened ParserFacts
  import opened LexerExamples
  import opened FileGrammar

  // ---------------------------------------------------------------------
  // Lists of two and three

  lemma FoldTwo(a: Expr, b: Expr, tail: Expr)
    ensures FoldCons([a] + [b], tail) == Expr.Cons(a, Expr.Cons(b, tail))
  {
    FoldConsIsList([a] + [b], tail);
    assert ([a] + [b])[1..] == [b];
    assert ListOf([b], tail) == Expr.Cons(b, ListOf([], tail));
  }

  lemma FoldThree(a: Expr, b: Expr, c: Expr, tail: Expr)
    ensures FoldCons([a] + [b] + [c], tail) == Expr.Cons(a, Expr.Cons(b, Expr.Cons(c, tail)))
  {
    FoldConsAppend([a] + [b], [c], tail);
    assert FoldCons([c], tail) == Expr.Cons(c, tail) by {
      assert [c][..0] == [];
    }
    FoldTwo(a, b, Expr.Cons(c, tail));
  }

  /** One symbol is the elements of a compound, when a comp-ender follows it. */
  lemma OneElement(a: Token, tail: seq<Token>, k: seq<Token>)
    requires a.kind == TokenKind.Symbol
    requires SkipTriviaFrom(tail) == Success(k) && Head(k).kind in CompEnders
    ensures ElementsFrom([a] + tail, []) == Success(Elements([Expr.Symbol(a.text)], k))
  {
    SymbolElement(a, tail, []);
    assert [] + [Expr.Symbol(a.text)] == [Expr.Symbol(a.text)];
  }

  /** Two symbols separated by whitespace are the elements of a compound, when a comp-ender follows them. */
  lemma TwoElements(a: Token, w: Token, b: Token, tail: seq<Token>, k: seq<Token>)
    requires a.kind == TokenKind.Symbol && w.kind == Whitespace && b.kind == TokenKind.Symbol
    requires SkipTriviaFrom(tail) == Success(k) && Head(k).kind in CompEnders
    ensures ElementsFrom([a] + ([w] + ([b] + tail)), []) ==
      Success(Elements([Expr.Symbol(a.text)] + [Expr.Symbol(b.text)], k))
  {
    var A := Expr.Symbol(a.text);
    NoTrivia(b, tail);
    SkipSpace(w, [b] + tail);
    SymbolElement(a, [w] + ([b] + tail), []);
    assert [] + [A] == [A];
    SymbolElement(b, tail, [A]);
  }

  // ---------------------------------------------------------------------
  // Streams

  /** `(a]`: the compound reads `a`, then meets `]` where `)` must come. */
  lemma MismatchStream(o: Token, a: Token, c: Token)
    requires o.kind == LParen && a.kind == TokenKind.Symbol && c.kind == RBracket
    ensures FileFrom([o] + ([a] + ([c] + [])), []) == Failure(ExpectedCloser(')'))
  {
    var A := Expr.Symbol(a.text);
    var r2 := [c] + [];
    ReadOpen(o, [a] + r2);
    NoTrivia(c, []);
    SymbolElement(a, r2, []);
    assert [] + [A] == [A];
    CompElements([a] + r2, LParen, [A], r2);
    PlainEnd(r2, [A], RParen);
    FileFails([o] + ([a] + r2), []);
  }

  /** `(a`: the input runs out where `)` must come. */
  lemma UnclosedStream(o: Token, a: Token)
    requires o.kind == LParen && a.kind == TokenKind.Symbol
    ensures FileFrom([o] + ([a] + []), []) == Failure(ExpectedCloser(')'))
  {
    var A := Expr.Symbol(a.text);
    ReadOpen(o, [a] + []);
    SymbolElement(a, [], []);
    assert [] + [A] == [A];
    CompElements([a] + [], LParen, [A], []);
    PlainEnd([], [A], RParen);
    FileFails([o] + ([a] + []), []);
  }

  /** `(a . b c)`: after the Dot and its one expression the closer is due, and `c` is not it. */
  lemma DottedTwoStream(o: Token, a: Token, w: Token, d: Token, b: Token, c: Token, r: Token)
    requires o.kind == LParen && w.kind == Whitespace && d.kind == Dot && r.kind == RParen
    requires a.kind == TokenKind.Symbol && b.kind == TokenKind.Symbol && c.kind == TokenKind.Symbol
    ensures FileFrom([o] + ([a] + ([w] + ([d] + ([w] + ([b] + ([w] + ([c] + ([r] + [])))))))), []) ==
      Failure(ExpectedCloser(')'))
  {
    var A := Expr.Symbol(a.text);
    var r4 := [w] + ([b] + ([w] + ([c] + ([r] + []))));
    var r3 := [d] + r4;
    var r2 := [w] + r3;
    NoTrivia(d, r4);
    SkipSpace(w, r3);
    OneElement(a, r2, r3);
    NoTrivia(a, r2);
    CompElements([a] + r2, LParen, [A], r3);
    DotThenTwo(d, w, b, c, r, [A]);
    ReadOpen(o, [a] + r2);
    FileFails([o] + ([a] + r2), []);
  }

  /** `. b c)` after the elements: one expression after the Dot, and then `c` is where `)` must come. */
  lemma DotThenTwo(d: Token, w: Token, b: Token, c: Token, r: Token, es: seq<Expr>)
    requires w.kind == Whitespace && d.kind == Dot && r.kind == RParen
    requires b.kind == TokenKind.Symbol && c.kind == TokenKind.Symbol
    ensures EndFrom([d] + ([w] + ([b] + ([w] + ([c] + ([r] + []))))), es, RParen) == Failure(ExpectedCloser(')'))
  {
    var r8 := [r] + [];
    var r7 := [c] + r8;
    var r6 := [w] + r7;
    var r5 := [b] + r6;
    var r4 := [w] + r5;
    NoTrivia(b, r6);
    SkipSpace(w, r5);
    ReadSymbol(r4, b, r6);
    DotEnd(d, r4, es, RParen);
    NoTrivia(c, r8);
    SkipSpace(w, r7);
  }

  /** `(. b)`: the Dot ends the element loop at once, and the compound is `b` itself. */
  lemma DotFirstStream(o: Token, d: Token, w: Token, b: Token, r: Token)
    requires o.kind == LParen && d.kind == Dot && w.kind == Whitespace && b.kind == TokenKind.Symbol && r.kind == RParen
    ensures FileFrom([o] + ([d] + ([w] + ([b] + ([r] + [])))), []) == Success([Expr.Symbol(b.text)])
  {
    var B := Expr.Symbol(b.text);
    var r4 := [r] + [];
    var r3 := [b] + r4;
    var r2 := [w] + r3;
    NoTrivia(d, r2);
    CompElements([d] + r2, LParen, [], [d] + r2);
    NoTrivia(b, r4);
    SkipSpace(w, r3);
    ReadSymbol(r2, b, r4);
    CloseWith(r, []);
    DotEnd(d, r2, [], RParen);
    ReadOpen(o, [d] + r2);
    FileSingle([o] + ([d] + r2), B);
  }

  /** `(a ..1)`: Ellipsis1 does not end the elements, and it begins no expression. */
  lemma EllipsisOneStream(o: Token, a: Token, w: Token, e: Token, r: Token)
    requires o.kind == LParen && a.kind == TokenKind.Symbol && w.kind == Whitespace && e.kind == Ellipsis1 && r.kind == RParen
    ensures FileFrom([o] + ([a] + ([w] + ([e] + ([r] + [])))), []) == Failure(ExpectedExpression)
  {
    var A := Expr.Symbol(a.text);
    var r4 := [r] + [];
    var r3 := [e] + r4;
    var r2 := [w] + r3;
    NoTrivia(e, r4);
    SkipSpace(w, r3);
    SymbolElement(a, r2, []);
    ReadNothing(r3, e, r4);
    assert ElementsFrom(r3, [] + [A]) == Failure(ExpectedExpression);
    NoTrivia(a, r2);
    ReadOpen(o, [a] + r2);
    FileFails([o] + ([a] + r2), []);
  }

  /** `'x`: the Quote and the expression after it read as `(quote x)`. */
  lemma QuoteMarkStream(q: Token, x: Token)
    requires q.kind == Quote && x.kind == TokenKind.Symbol
    ensures FileFrom([q] + ([x] + []), []) ==
      Success([Expr.Cons(Expr.Symbol("quote"), Expr.Cons(Expr.Symbol(x.text), Expr.Nil))])
  {
    NoTrivia(q, [x] + []);
    NoTrivia(x, []);
    ReadSymbol([x] + [], x, []);
    FileSingle([q] + ([x] + []), Expr.Cons(Expr.Symbol("quote"), Expr.Cons(Expr.Symbol(x.text), Expr.Nil)));
  }

  /** `(quote x)`: a proper list of the two symbols. */
  lemma QuoteListStream(o: Token, qs: Token, w: Token, x: Token, r: Token)
    requires o.kind == LParen && qs.kind == TokenKind.Symbol && w.kind == Whitespace && x.kind == TokenKind.Symbol && r.kind == RParen
    ensures FileFrom([o] + ([qs] + ([w] + ([x] + ([r] + [])))), []) ==
      Success([Expr.Cons(Expr.Symbol(qs.text), Expr.Cons(Expr.Symbol(x.text), Expr.Nil))])
  {
    var Q, X := Expr.Symbol(qs.text), Expr.Symbol(x.text);
    var r4 := [r] + [];
    var r3 := [x] + r4;
    var r2 := [w] + r3;
    NoTrivia(x, r4);
    SkipSpace(w, r3);
    SymbolElement(qs, r2, []);
    NoTrivia(r, []);
    SymbolElement(x, r4, [] + [Q]);
    assert [] + [Q] == [Q];
    NoTrivia(qs, r2);
    CompElements([qs] + r2, LParen, [Q] + [X], r4);
    CloseWith(r, []);
    PlainEnd(r4, [Q] + [X], RParen);
    FoldTwo(Q, X, Expr.Nil);
    ReadOpen(o, [qs] + r2);
    FileSingle([o] + ([qs] + r2), Expr.Cons(Q, Expr.Cons(X, Expr.Nil)));
  }

  /** `()` and `[]`: an opener followed by its own closer is Nil. */
  lemma EmptyStream(o: Token, c: Token)
    requires o.kind == LParen || o.kind == LBracket
    requires c.kind == CloserFor(o.kind)
    ensures FileFrom([o] + ([c] + []), []) == Success([Expr.Nil])
  {
    NoTrivia(c, []);
    ReadOpen(o, [c] + []);
    FileSingle([o] + ([c] + []), Expr.Nil);
  }

  /** `(a b ...)`: the Ellipsis is the last element and the list ends in Nil. */
  lemma EllipsisLastStream(o: Token, a: Token, w: Token, b: Token, e: Token, r: Token)
    requires o.kind == LParen && w.kind == Whitespace && r.kind == RParen && e == Token(TokenKind.Ellipsis, "...")
    requires a.kind == TokenKind.Symbol && b.kind == TokenKind.Symbol
    ensures FileFrom([o] + ([a] + ([w] + ([b] + ([w] + ([e] + ([r] + [])))))), []) ==
      Success([Expr.Cons(Expr.Symbol(a.text), Expr.Cons(Expr.Symbol(b.text), Expr.Cons(Expr.Ellipsis(0), Expr.Nil)))])
  {
    var A, B := Expr.Symbol(a.text), Expr.Symbol(b.text);
    var r6 := [r] + [];
    var r5 := [e] + r6;
    var r2 := [w] + ([b] + ([w] + r5));
    NoTrivia(e, r6);
    SkipSpace(w, r5);
    TwoElements(a, w, b, [w] + r5, r5);
    NoTrivia(a, r2);
    CompElements([a] + r2, LParen, [A] + [B], r5);
    CloseWith(r, []);
    EllipsisEnd(e, r6, [A] + [B], RParen);
    EllipsisCountZero(e.text);
    FoldThree(A, B, Expr.Ellipsis(0), Expr.Nil);
    ReadOpen(o, [a] + r2);
    FileSingle([o] + ([a] + r2), Expr.Cons(A, Expr.Cons(B, Expr.Cons(Expr.Ellipsis(0), Expr.Nil))));
  }

  /** `(a b . c)`: the elements folded onto the expression after the Dot. */
  lemma DottedStream(o: Token, a: Token, w: Token, b: Token, d: Token, c: Token, r: Token)
    requires o.kind == LParen && w.kind == Whitespace && d.kind == Dot && r.kind == RParen
    requires a.kind == TokenKind.Symbol && b.kind == TokenKind.Symbol && c.kind == TokenKind.Symbol
    ensures FileFrom([o] + ([a] + ([w] + ([b] + ([w] + ([d] + ([w] + ([c] + ([r] + [])))))))), []) ==
      Success([Expr.Cons(Expr.Symbol(a.text), Expr.Cons(Expr.Symbol(b.text), Expr.Symbol(c.text)))])
  {
    var A, B, C := Expr.Symbol(a.text), Expr.Symbol(b.text), Expr.Symbol(c.text);
    var r8 := [r] + [];
    var r7 := [c] + r8;
    var r6 := [w] + r7;
    var r5 := [d] + r6;
    var r2 := [w] + ([b] + ([w] + r5));
    NoTrivia(d, r6);
    SkipSpace(w, r5);
    TwoElements(a, w, b, [w] + r5, r5);
    NoTrivia(a, r2);
    CompElements([a] + r2, LParen, [A] + [B], r5);
    NoTrivia(c, r8);
    SkipSpace(w, r7);
    ReadSymbol(r6, c, r8);
    CloseWith(r, []);
    DotEnd(d, r6, [A] + [B], RParen);
    FoldTwo(A, B, C);
    ReadOpen(o, [a] + r2);
    FileSingle([o] + ([a] + r2), Expr.Cons(A, Expr.Cons(B, C)));
  }

  /** `a` and a newline: after `a` the next token is the newline, not Eof, so another expression is read, and there is none. */
  lemma TrailingNewlineStream(a: Token, n: Token)
    requires a.kind == TokenKind.Symbol && n.kind == Whitespace
    ensures FileFrom([a] + ([n] + []), []) == Failure(ExpectedExpression)
  {
    NoTrivia(a, [n] + []);
    ReadSymbol([a] + ([n] + []), a, [n] + []);
    SkipSpace(n, []);
    ReadAtEnd([n] + []);
    assert Head([n] + []) == n;
    FileFails([n] + [], [Expr.Symbol(a.text)]);
    assert [] + [Expr.Symbol(a.text)] == [Expr.Symbol(a.text)];
  }

  /** `a` and a newline under the grammar's file loop: the newline ends the file. */
  lemma TrailingNewlineGrammarStream(a: Token, n: Token)
    requires a.kind == TokenKind.Symbol && n.kind == Whitespace
    ensures GrammarFileFrom([a] + ([n] + []), []) == Success([Expr.Symbol(a.text)])
  {
    NoTrivia(a, []);
    ReadSymbol([a] + [], a, []);
    FileSingle([a] + [], Expr.Symbol(a.text));
    assert [a] + [] == [a];
    assert Layout([n] + []) by {
      assert ([n] + [])[0] == n;
    }
    TrailingLayoutAccepted([a], [n] + [], []);
  }

  // ---------------------------------------------------------------------
  // Sources

  /** A `(` closed by `]` is the error naming the closer that was due. */
  lemma MismatchFails()
    ensures ParseSource("(a]") == Failure(ExpectedCloser(')'))
  {
    MismatchTokens("(a]");
    MismatchStream(Token(LParen, "("), Token(TokenKind.Symbol, "a"), Token(RBracket, "]"));
  }

  /** Input that ends inside a compound is the error naming its closer. */
  lemma UnclosedFails()
    ensures ParseSource("(a") == Failure(ExpectedCloser(')'))
  {
    UnclosedTokens("(a");
    UnclosedStream(Token(LParen, "("), Token(TokenKind.Symbol, "a"));
  }

  /** Only one expression may follow a Dot. */
  lemma DottedTwoFails()
    ensures ParseSource("(a . b c)") == Failure(ExpectedCloser(')'))
  {
    DottedTwoTokens("(a . b c)");
    DottedTwoStream(Token(LParen, "("), Token(TokenKind.Symbol, "a"), Token(Whitespace, " "), Token(Dot, "."),
      Token(TokenKind.Symbol, "b"), Token(TokenKind.Symbol, "c"), Token(RParen, ")"));
  }

  /** A Dot with no elements before it: the compound is the expression after the Dot. */
  lemma DotFirstIsTail()
    ensures ParseSource("(. b)") == Success([Expr.Symbol("b")])
  {
    DotFirstTokens("(. b)");
    DotFirstStream(Token(LParen, "("), Token(Dot, "."), Token(Whitespace, " "), Token(TokenKind.Symbol, "b"), Token(RParen, ")"));
  }

  /** `..1` lexes as Ellipsis1, which ends no compound and begins no expression. */
  lemma EllipsisOneFails()
    ensures ParseSource("(a ..1)") == Failure(ExpectedExpression)
  {
    EllipsisOneTokens("(a ..1)");
    EllipsisOneStream(Token(LParen, "("), Token(TokenKind.Symbol, "a"), Token(Whitespace, " "), Token(Ellipsis1, "..1"), Token(RParen, ")"));
  }

  /** The quote mark reads as a two-element list headed by `quote`. */
  lemma QuoteMark()
    ensures ParseSource("'x") == Success([Expr.Cons(Expr.Symbol("quote"), Expr.Cons(Expr.Symbol("x"), Expr.Nil))])
  {
    QuoteMarkTokens("'x");
    QuoteMarkStream(Token(Quote, "'"), Token(TokenKind.Symbol, "x"));
  }

  lemma QuoteList()
    ensures ParseSource("(quote x)") == Success([Expr.Cons(Expr.Symbol("quote"), Expr.Cons(Expr.Symbol("x"), Expr.Nil))])
  {
    QuoteListTokens("(quote x)");
    QuoteListStream(Token(LParen, "("), Token(TokenKind.Symbol, "quote"), Token(Whitespace, " "), Token(TokenKind.Symbol, "x"), Token(RParen, ")"));
  }

  /** The quote mark is sugar: `'x` reads as the list `(quote x)` does. */
  lemma QuoteSugar()
    ensures ParseSource("'x") == ParseSource("(quote x)")
  {
    QuoteMark();
    QuoteList();
  }

  /** `()` and `[]` both read as Nil. */
  lemma EmptyCompounds()
    ensures ParseSource("()") == ParseSource("[]") == Success([Expr.Nil])
  {
    EmptyParensTokens("()");
    EmptyStream(Token(LParen, "("), Token(RParen, ")"));
    EmptyBracketsTokens("[]");
    EmptyStream(Token(LBracket, "["), Token(RBracket, "]"));
  }

  /** The Ellipsis marker is the last element of a proper list, not its tail. */
  lemma EllipsisIsLastElement()
    ensures ParseSource("(a b ...)") ==
      Success([Expr.Cons(Expr.Symbol("a"), Expr.Cons(Expr.Symbol("b"), Expr.Cons(Expr.Ellipsis(0), Expr.Nil)))])
  {
    EllipsisLastTokens("(a b ...)");
    EllipsisLastStream(Token(LParen, "("), Token(TokenKind.Symbol, "a"), Token(Whitespace, " "), Token(TokenKind.Symbol, "b"),
      Token(TokenKind.Ellipsis, "..."), Token(RParen, ")"));
  }

  /** A dotted list ends in the expression after the Dot. */
  lemma DottedList()
    ensures ParseSource("(a b . c)") ==
      Success([Expr.Cons(Expr.Symbol("a"), Expr.Cons(Expr.Symbol("b"), Expr.Symbol("c")))])
  {
    DottedTokens("(a b . c)");
    DottedStream(Token(LParen, "("), Token(TokenKind.Symbol, "a"), Token(Whitespace, " "), Token(TokenKind.Symbol, "b"),
      Token(Dot, "."), Token(TokenKind.Symbol, "c"), Token(RParen, ")"));
  }

  /**
   * A symbol and a newline: `parseFile` as written fails, asking for an
   * expression after the newline; the loop the grammar describes reads `a`.
   */
  lemma TrailingNewline()
    ensures ParseSource("a\n") == Failure(ExpectedExpression)
    ensures GrammarParseSource("a\n") == Success([Expr.Symbol("a")])
  {
    var a, n := Token(TokenKind.Symbol, "a"), Token(Whitespace, "\n");
    TrailingNewlineTokens("a\n");
    TrailingNewlineStream(a, n);
    TrailingNewlineGrammarStream(a, n);
  }

  /** An empty source is a file of no expressions. */
  lemma EmptySource()
    ensures ParseSource("") == Success([])
  {
    StreamStep("", 0);
  }
}
