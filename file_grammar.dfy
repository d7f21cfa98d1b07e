/**
 * The end of a file. `parseFile` in packages/syntax/lib/parser.ts looks for
 * Eof before skipping trivia, so a file whose last expression is followed by
 * whitespace or a comment asks for one more expression and fails; the
 * grammar at the head of that file, `File = Trivia* Expr*(Trivia)`, lets
 * trivia end the file. `FileFrom` models the code as written and
 * `GrammarFileFrom` the loop the grammar describes.
 *
 * The key fact is that a successful read never looks past the tokens it
 * consumes: appending tokens to the stream appends them to what is left.
 */
module FileGrammar {
  import opened Wrappers
  import opened Lexing
  import opened Exprs
  import opened Parsing
  import opened ParserFacts

  /** Tokens the reader skips without error: whitespace and line comments. */
  predicate Layout(ts: seq<Token>) {
    forall i :: 0 <= i < |ts| ==> IsLayout(ts[i].kind)
  }

  lemma HeadDropAppend(ts: seq<Token>, tail: seq<Token>)
    requires ts != []
    ensures Head(ts + tail) == Head(ts) && Drop(ts + tail) == Drop(ts) + tail
  {
    assert (ts + tail)[1..] == ts[1..] + tail;
  }

  // ---------------------------------------------------------------------
  // A successful read is unaffected by what follows it

  lemma {:induction false} SkipAppend(ts: seq<Token>, tail: seq<Token>)
    requires SkipTriviaFrom(ts).Success? && SkipTriviaFrom(ts).value != []
    ensures SkipTriviaFrom(ts + tail) == Success(SkipTriviaFrom(ts).value + tail)
    decreases |ts|
  {
    HeadDropAppend(ts, tail);
    if Head(ts).kind in Trivia {
      SkipAppend(Drop(ts), tail);
    }
  }

  lemma {:induction false} ExprAppend(ts: seq<Token>, tail: seq<Token>)
    requires ExprFrom(ts).Success?
    ensures ExprFrom(ts + tail) == Success(Read(ExprFrom(ts).value.expr, ExprFrom(ts).value.rest + tail))
    decreases |ts|, 1
  {
    var k := SkipTriviaFrom(ts).value;
    SkipAppend(ts, tail);
    HeadDropAppend(k, tail);
    var t := Head(k);
    if t.kind in Special {
      ExprAppend(Drop(k), tail);
    } else if t.kind == LParen || t.kind == LBracket {
      CompAppend(Drop(k), t.kind, tail);
    }
  }

  lemma {:induction false} CompAppend(ts: seq<Token>, open: TokenKind, tail: seq<Token>)
    requires open == LParen || open == LBracket
    requires CompFrom(ts, open).Success?
    ensures CompFrom(ts + tail, open) == Success(Read(CompFrom(ts, open).value.expr, CompFrom(ts, open).value.rest + tail))
    decreases |ts|, 4
  {
    var k := SkipTriviaFrom(ts).value;
    SkipAppend(ts, tail);
    HeadDropAppend(k, tail);
    if Head(k).kind != CloserFor(open) {
      var elements := ElementsFrom(k, []).value;
      EndNotAtEof(elements.rest, elements.exprs, CloserFor(open));
      ElementsAppend(k, [], tail);
      EndAppend(elements.rest, elements.exprs, CloserFor(open), tail);
    }
  }

  /** A compound end that succeeds has a token to look at. */
  lemma EndNotAtEof(ts: seq<Token>, es: seq<Expr>, close: TokenKind)
    requires close == RParen || close == RBracket
    requires EndFrom(ts, es, close).Success?
    ensures ts != []
  {
  }

  lemma {:induction false} ElementsAppend(ts: seq<Token>, acc: seq<Expr>, tail: seq<Token>)
    requires ElementsFrom(ts, acc).Success? && ElementsFrom(ts, acc).value.rest != []
    ensures ElementsFrom(ts + tail, acc) == Success(Elements(ElementsFrom(ts, acc).value.exprs, ElementsFrom(ts, acc).value.rest + tail))
    decreases |ts|, 2
  {
    if Head(ts).kind !in CompEnders {
      var e := ExprFrom(ts).value;
      var k := SkipTriviaFrom(e.rest).value;
      HeadDropAppend(ts, tail);
      ExprAppend(ts, tail);
      ElementsRestNonEmpty(k, acc + [e.expr]);
      SkipAppend(e.rest, tail);
      ElementsAppend(k, acc + [e.expr], tail);
    } else {
      HeadDropAppend(ts, tail);
    }
  }

  /** The element loop ends at a non-empty stream only if it starts at one. */
  lemma ElementsRestNonEmpty(ts: seq<Token>, acc: seq<Expr>)
    requires ElementsFrom(ts, acc).Success? && ElementsFrom(ts, acc).value.rest != []
    ensures ts != []
  {
  }

  lemma {:induction false} EndAppend(ts: seq<Token>, es: seq<Expr>, close: TokenKind, tail: seq<Token>)
    requires close == RParen || close == RBracket
    requires EndFrom(ts, es, close).Success? && ts != []
    ensures EndFrom(ts + tail, es, close) == Success(Read(EndFrom(ts, es, close).value.expr, EndFrom(ts, es, close).value.rest + tail))
    decreases |ts|, 3
  {
    var t := TailFrom(ts, es).value;
    TailAppend(ts, es, tail);
    CloseAppend(t.rest, close, tail);
  }

  lemma {:induction false} TailAppend(ts: seq<Token>, es: seq<Expr>, tail: seq<Token>)
    requires TailFrom(ts, es).Success? && ts != []
    ensures TailFrom(ts + tail, es) ==
      Success(Tail(TailFrom(ts, es).value.exprs, TailFrom(ts, es).value.final, TailFrom(ts, es).value.rest + tail))
    decreases |ts|, 2
  {
    HeadDropAppend(ts, tail);
    if Head(ts).kind == Dot {
      ExprAppend(Drop(ts), tail);
    }
  }

  lemma CloseAppend(ts: seq<Token>, close: TokenKind, tail: seq<Token>)
    requires close == RParen || close == RBracket
    requires CloseFrom(ts, close).Success?
    ensures CloseFrom(ts + tail, close) == Success(CloseFrom(ts, close).value + tail)
  {
    var k := SkipTriviaFrom(ts).value;
    SkipAppend(ts, tail);
    HeadDropAppend(k, tail);
  }

  // ---------------------------------------------------------------------
  // The end of a file

  /** Layout is skipped to the end of the stream. */
  lemma {:induction false} SkipLayout(ts: seq<Token>)
    requires Layout(ts)
    ensures SkipTriviaFrom(ts) == Success([])
    decreases |ts|
  {
    if ts != [] {
      assert IsLayout(ts[0].kind);
      assert Layout(ts[1..]) by {
        assert forall i :: 1 <= i < |ts| ==> ts[1..][i - 1] == ts[i];
      }
      SkipLayout(Drop(ts));
    }
  }

  /** Reading an expression skips trivia first, so skipping it beforehand changes nothing. */
  lemma ExprAfterSkip(ts: seq<Token>)
    requires SkipTriviaFrom(ts).Success?
    ensures ExprFrom(SkipTriviaFrom(ts).value) == ExprFrom(ts)
  {
    var k := SkipTriviaFrom(ts).value;
    assert SkipTriviaFrom(k) == Success(k);
  }

  /** One round of the grammar's loop: an expression is read and the loop goes on after it. */
  lemma GrammarStep(ts: seq<Token>, acc: seq<Expr>)
    requires ExprFrom(ts).Success?
    ensures GrammarFileFrom(ts, acc) == GrammarFileFrom(ExprFrom(ts).value.rest, acc + [ExprFrom(ts).value.expr])
  {
    ExprAfterSkip(ts);
  }

  /** Layout alone is a file of no expressions for the grammar's loop, and an error for the code's own. */
  lemma LayoutOnly(ts: seq<Token>, acc: seq<Expr>)
    requires Layout(ts)
    ensures GrammarFileFrom(ts, acc) == Success(acc)
    ensures ts != [] ==> FileFrom(ts, acc) == Failure(ExpectedExpression)
  {
    SkipLayout(ts);
    if ts != [] {
      assert IsLayout(ts[0].kind);
    }
  }

  /** Wherever the code's loop succeeds, the grammar's loop gives the same expressions. */
  lemma {:induction false} GrammarAgrees(ts: seq<Token>, acc: seq<Expr>)
    requires FileFrom(ts, acc).Success?
    ensures GrammarFileFrom(ts, acc) == FileFrom(ts, acc)
    decreases |ts|
  {
    if Head(ts).kind != Eof {
      var e := ExprFrom(ts).value;
      GrammarStep(ts, acc);
      GrammarAgrees(e.rest, acc + [e.expr]);
    }
  }

  /**
   * The grammar's loop accepts what the code's loop accepts followed by any
   * layout, with the same expressions.
   */
  lemma {:induction false} TrailingLayoutAccepted(ts: seq<Token>, layout: seq<Token>, acc: seq<Expr>)
    requires FileFrom(ts, acc).Success? && Layout(layout)
    ensures GrammarFileFrom(ts + layout, acc) == FileFrom(ts, acc)
    decreases |ts|
  {
    if ts == [] {
      assert ts + layout == layout;
      LayoutOnly(layout, acc);
    } else if Head(ts).kind == Eof {
      HeadDropAppend(ts, layout);
    } else {
      var e := ExprFrom(ts).value;
      ExprAppend(ts, layout);
      GrammarStep(ts + layout, acc);
      TrailingLayoutAccepted(e.rest, layout, acc + [e.expr]);
    }
  }

  /**
   * The code's loop rejects every token stream it accepts once layout
   * follows it: after the last expression it finds a whitespace or comment
   * token, not Eof, and asks for one more expression.
   */
  lemma {:induction false} TrailingLayoutRejected(ts: seq<Token>, layout: seq<Token>, acc: seq<Expr>)
    requires AllWellSpelled(ts) && FileFrom(ts, acc).Success?
    requires Layout(layout) && layout != []
    ensures FileFrom(ts + layout, acc) == Failure(ExpectedExpression)
    decreases |ts|
  {
    if ts == [] {
      assert ts + layout == layout;
      LayoutOnly(layout, acc);
    } else {
      assert WellSpelled(ts[0]);
      var e := ExprFrom(ts).value;
      HeadDropAppend(ts, layout);
      ExprAppend(ts, layout);
      CleanExpr(ts);
      CleanSuffix(ts, e.rest);
      AllWellSpelledSuffix(ts, e.rest);
      TrailingLayoutRejected(e.rest, layout, acc + [e.expr]);
    }
  }
}
