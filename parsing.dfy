/**
 * The LL(1) recursive-descent reader of packages/syntax/lib/parser.ts.
 *
 * The functions `SkipTriviaFrom`, `ExprFrom`, `CompFrom`, `ElementsFrom`,
 * `TailFrom`, `CloseFrom`, `EndFrom` and `FileFrom` give the meaning of each
 * parsing routine as a function of the token stream still to come (the
 * lexer's `Stream()`): the tree read and the stream left after it, or the
 * first error. The methods `SkipTrivia`, `ParseExpr`, `ParseComp` and
 * `ParseFile` drive a `Lexer` as the source does and are proved to agree with
 * them.
 */
module Parsing {
  import opened Wrappers
  import opened Lexing
  import opened Exprs

  /** The errors the reader throws; the first one aborts the whole parse. */
  datatype ParseError =
    | UnknownToken(text: string)
    | ExpectedExpression
    | ExpectedCloser(closer: char)

  const Trivia: set<TokenKind> := {Whitespace, LineComment, Unknown}
  const Special: set<TokenKind> := {Quote, Backtick, Comma, CommaAt}
  const CompEnders: set<TokenKind> := {RParen, RBracket, Dot, TokenKind.Ellipsis, Eof}

  /** The list head each reader-sugar token expands to. */
  function SpecialSymbol(k: TokenKind): (name: string)
    requires k in Special
    ensures (name == "quote") == (k == Quote)
    ensures (name == "quasiquote") == (k == Backtick)
    ensures (name == "unquote") == (k == Comma)
    ensures (name == "unquote-splicing") == (k == CommaAt)
  {
    if k == Quote then "quote"
    else if k == Backtick then "quasiquote"
    else if k == Comma then "unquote"
    else "unquote-splicing"
  }

  /** The closer of the opener's own family: `)` for `(` and `]` for `[`. */
  function CloserFor(open: TokenKind): (close: TokenKind)
    requires open == LParen || open == LBracket
    ensures close == RParen || close == RBracket
    ensures (close == RParen) == (open == LParen)
  {
    if open == LParen then RParen else RBracket
  }

  /** The character the "expected closer" error names. */
  function CloserText(close: TokenKind): char {
    if close == RParen then ')' else ']'
  }

  /** `es.reduceRight((cdr, car) => Cons(car, cdr), tail)`: consumes `es` from its last element. */
  function FoldCons(es: seq<Expr>, tail: Expr): (r: Expr)
    ensures es == [] ==> r == tail
    ensures es != [] ==> r.Cons? && r.car == es[0]
    decreases |es|
  {
    if es == [] then tail else FoldCons(es[..|es| - 1], Expr.Cons(es[|es| - 1], tail))
  }

  predicate AllDigits(s: string) {
    forall k :: 0 <= k < |s| ==> IsDigit(s[k])
  }

  function DecimalValue(ds: string): nat
    requires AllDigits(ds)
  {
    if ds == [] then 0 else 10 * DecimalValue(ds[..|ds| - 1]) + (ds[|ds| - 1] as int - '0' as int)
  }

  /**
   * `Number(text.slice(2))`, or 0 if that is NaN. Only a run of decimal digits
   * (the empty run reading 0) is modelled as a number here.
   */
  function EllipsisCount(text: string): (n: int)
    ensures n >= 0
    ensures text == "..." ==> n == 0
    ensures forall ds :: text == ".." + ds && AllDigits(ds) ==> n == DecimalValue(ds)
  {
    var digits := if |text| >= 2 then text[2..] else "";
    if AllDigits(digits) then DecimalValue(digits) else 0
  }

  // ---------------------------------------------------------------------
  // The meaning of each parsing routine

  /** An expression read and the stream left after it. */
  datatype Read = Read(expr: Expr, rest: seq<Token>)

  /** The elements of a compound read so far and the stream left after them. */
  datatype Elements = Elements(exprs: seq<Expr>, rest: seq<Token>)

  /** A compound's elements after its tail is read, its final cdr, and the stream left after them. */
  datatype Tail = Tail(exprs: seq<Expr>, final: Expr, rest: seq<Token>)

  /** Where skipTrivia leaves the stream, or the Unknown token it stops at. */
  function SkipTriviaFrom(ts: seq<Token>): (r: Result<seq<Token>, ParseError>)
    ensures r.Success? ==> |r.value| <= |ts| && Head(r.value).kind !in Trivia
    ensures r.Failure? ==> r.error.UnknownToken?
    decreases |ts|
  {
    var t := Head(ts);
    if t.kind in Trivia then
      if t.kind == Unknown then Failure(UnknownToken(t.text)) else SkipTriviaFrom(Drop(ts))
    else Success(ts)
  }

  /** One expression read from the stream `ts`, and the stream after it. */
  function ExprFrom(ts: seq<Token>): (r: Result<Read, ParseError>)
    ensures r.Success? ==> |r.value.rest| < |ts| && !r.value.expr.Ellipsis?
    decreases |ts|, 1
  {
    var skipped := SkipTriviaFrom(ts);
    if skipped.Failure? then Failure(skipped.error)
    else
      var t := Head(skipped.value);
      var after := Drop(skipped.value);
      if t.kind == TokenKind.Number then Success(Read(Expr.Number(t.text), after))
      else if t.kind == TokenKind.Boolean then Success(Read(Expr.Boolean(t.text == "#t"), after))
      else if t.kind == TokenKind.Symbol then Success(Read(Expr.Symbol(t.text), after))
      else if t.kind in Special then
        var inner := ExprFrom(after);
        if inner.Failure? then Failure(inner.error)
        else Success(Read(Expr.Cons(Expr.Symbol(SpecialSymbol(t.kind)), Expr.Cons(inner.value.expr, Expr.Nil)), inner.value.rest))
      else if t.kind == LParen || t.kind == LBracket then CompFrom(after, t.kind)
      else Failure(ExpectedExpression)
  }

  /** The rest of a compound whose opener `open` has just been popped. */
  function CompFrom(ts: seq<Token>, open: TokenKind): (r: Result<Read, ParseError>)
    requires open == LParen || open == LBracket
    ensures r.Success? ==> |r.value.rest| < |ts| && !r.value.expr.Ellipsis?
    decreases |ts|, 4
  {
    var close := CloserFor(open);
    var skipped := SkipTriviaFrom(ts);
    if skipped.Failure? then Failure(skipped.error)
    else
      var k := skipped.value;
      if Head(k).kind == close then Success(Read(Expr.Nil, Drop(k)))
      else
        var elements := ElementsFrom(k, []);
        if elements.Failure? then Failure(elements.error)
        else EndFrom(elements.value.rest, elements.value.exprs, close)
  }

  /** A compound after its elements `es`: the tail, then the closer, then the fold. */
  function EndFrom(ts: seq<Token>, es: seq<Expr>, close: TokenKind): (r: Result<Read, ParseError>)
    requires close == RParen || close == RBracket
    ensures r.Success? ==> |r.value.rest| < |ts| && !r.value.expr.Ellipsis?
    ensures r.Success? && es != [] ==> r.value.expr.Cons? && r.value.expr.car == es[0]
    decreases |ts|, 3
  {
    var tail := TailFrom(ts, es);
    if tail.Failure? then Failure(tail.error)
    else
      var closed := CloseFrom(tail.value.rest, close);
      if closed.Failure? then Failure(closed.error)
      else Success(Read(FoldCons(tail.value.exprs, tail.value.final), closed.value))
  }

  /** Skips trivia and pops `close`, which must be the next token. */
  function CloseFrom(ts: seq<Token>, close: TokenKind): (r: Result<seq<Token>, ParseError>)
    requires close == RParen || close == RBracket
    ensures r.Success? ==> |r.value| < |ts|
    ensures r.Failure? ==> r.error.UnknownToken? || r.error == ExpectedCloser(CloserText(close))
  {
    var skipped := SkipTriviaFrom(ts);
    if skipped.Failure? then Failure(skipped.error)
    else if Head(skipped.value).kind != close then Failure(ExpectedCloser(CloserText(close)))
    else Success(Drop(skipped.value))
  }

  /** The element loop: expressions (trivia skipped after each) until a comp-ender is next; appended to `acc`. */
  function ElementsFrom(ts: seq<Token>, acc: seq<Expr>): (r: Result<Elements, ParseError>)
    ensures r.Success? ==> |r.value.rest| <= |ts| && Head(r.value.rest).kind in CompEnders
    ensures r.Success? ==> acc <= r.value.exprs
    decreases |ts|, 2
  {
    if Head(ts).kind in CompEnders then Success(Elements(acc, ts))
    else
      var e := ExprFrom(ts);
      if e.Failure? then Failure(e.error)
      else
        var skipped := SkipTriviaFrom(e.value.rest);
        if skipped.Failure? then Failure(skipped.error)
        else ElementsFrom(skipped.value, acc + [e.value.expr])
  }

  /** After the elements: a Dot and the final cdr, an Ellipsis as a last element, or nothing. */
  function TailFrom(ts: seq<Token>, es: seq<Expr>): (r: Result<Tail, ParseError>)
    ensures r.Success? ==> |r.value.rest| <= |ts| && !r.value.final.Ellipsis?
    ensures r.Success? ==> es <= r.value.exprs && |r.value.exprs| <= |es| + 1
    decreases |ts|, 2
  {
    var t := Head(ts);
    if t.kind == Dot then
      var final := ExprFrom(Drop(ts));
      if final.Failure? then Failure(final.error)
      else Success(Tail(es, final.value.expr, final.value.rest))
    else if t.kind == TokenKind.Ellipsis then
      Success(Tail(es + [Expr.Ellipsis(EllipsisCount(t.text))], Expr.Nil, Drop(ts)))
    else Success(Tail(es, Expr.Nil, ts))
  }

  /** The file loop: expressions until Eof is next, appended to `acc`. */
  function FileFrom(ts: seq<Token>, acc: seq<Expr>): (r: Result<seq<Expr>, ParseError>)
    ensures r.Success? ==> acc <= r.value && |r.value| <= |acc| + |ts|
    decreases |ts|
  {
    if Head(ts).kind == Eof then Success(acc)
    else
      var e := ExprFrom(ts);
      if e.Failure? then Failure(e.error)
      else FileFrom(e.value.rest, acc + [e.value.expr])
  }

  /** What `parseFile(new Lexer(src))` returns. */
  function ParseSource(src: string): (r: Result<seq<Expr>, ParseError>)
    ensures r.Success? ==> |r.value| <= |src|
  {
    FileFrom(Tokens(src, 0), [])
  }

  /**
   * The file loop as the grammar `File = Trivia* Expr*(Trivia)` describes it:
   * trivia is skipped before looking for Eof, so layout may end the file.
   */
  function GrammarFileFrom(ts: seq<Token>, acc: seq<Expr>): (r: Result<seq<Expr>, ParseError>)
    ensures r.Success? ==> acc <= r.value && |r.value| <= |acc| + |ts|
    decreases |ts|
  {
    var skipped := SkipTriviaFrom(ts);
    if skipped.Failure? then Failure(skipped.error)
    else if Head(skipped.value).kind == Eof then Success(acc)
    else
      var e := ExprFrom(skipped.value);
      if e.Failure? then Failure(e.error)
      else GrammarFileFrom(e.value.rest, acc + [e.value.expr])
  }

  /** The corrected reader run on a fresh lexer over `src`. */
  function GrammarParseSource(src: string): Result<seq<Expr>, ParseError> {
    GrammarFileFrom(Tokens(src, 0), [])
  }

  /** A method's result agrees with a spec result, and the lexer's stream is what the spec leaves. */
  ghost predicate Yields(r: Result<Expr, ParseError>, spec: Result<Read, ParseError>, rest: seq<Token>) {
    if spec.Success? then r == Success(spec.value.expr) && rest == spec.value.rest
    else r == Failure(spec.error)
  }

  // ---------------------------------------------------------------------
  // The parsing routines, driving a lexer

  /** Pops Whitespace and LineComment tokens; an Unknown token is popped and reported. */
  method SkipTrivia(tokens: Lexer) returns (o: Outcome<ParseError>)
    requires tokens.Valid()
    modifies tokens
    ensures tokens.Valid()
    ensures SkipTriviaFrom(old(tokens.Stream())).Success? ==>
      o == Pass && tokens.Stream() == SkipTriviaFrom(old(tokens.Stream())).value
    ensures SkipTriviaFrom(old(tokens.Stream())).Failure? ==>
      o == Fail(SkipTriviaFrom(old(tokens.Stream())).error)
  {
    while true
      invariant tokens.Valid()
      invariant SkipTriviaFrom(tokens.Stream()) == SkipTriviaFrom(old(tokens.Stream()))
      decreases |tokens.Stream()|
    {
      var peek := tokens.Peek();
      if peek.kind in Trivia {
        var popped := tokens.Pop();
        if peek.kind == Unknown {
          return Fail(UnknownToken(peek.text));
        }
      } else {
        break;
      }
    }
    o := Pass;
  }

  method ParseExpr(tokens: Lexer) returns (r: Result<Expr, ParseError>)
    requires tokens.Valid()
    modifies tokens
    ensures tokens.Valid()
    ensures Yields(r, ExprFrom(old(tokens.Stream())), tokens.Stream())
    decreases |tokens.Stream()|, 1
  {
    var s := SkipTrivia(tokens);
    if s.Fail? {
      return Failure(s.error);
    }
    var next := tokens.Pop();
    if next.kind == TokenKind.Number {
      r := Success(Expr.Number(next.text));
    } else if next.kind == TokenKind.Boolean {
      r := Success(Expr.Boolean(next.text == "#t"));
    } else if next.kind == TokenKind.Symbol {
      r := Success(Expr.Symbol(next.text));
    } else if next.kind in Special {
      var inner := ParseExpr(tokens);
      if inner.Failure? {
        return Failure(inner.error);
      }
      var symbol := SpecialSymbol(next.kind);
      r := Success(Expr.Cons(Expr.Symbol(symbol), Expr.Cons(inner.value, Expr.Nil)));
    } else if next.kind == LParen || next.kind == LBracket {
      r := ParseComp(tokens, next.kind);
    } else {
      r := Failure(ExpectedExpression);
    }
  }

  /** Reads a compound after its opener: `()`/`[]`, or elements, a tail and the matching closer. */
  method ParseComp(tokens: Lexer, open: TokenKind) returns (r: Result<Expr, ParseError>)
    requires tokens.Valid() && (open == LParen || open == LBracket)
    modifies tokens
    ensures tokens.Valid()
    ensures Yields(r, CompFrom(old(tokens.Stream()), open), tokens.Stream())
    decreases |tokens.Stream()|, 4
  {
    var close := CloserFor(open);
    var s := SkipTrivia(tokens);
    if s.Fail? {
      return Failure(s.error);
    }
    var peek := tokens.Peek();
    if peek.kind == close {
      var popped := tokens.Pop();
      return Success(Expr.Nil);
    }
    var es := ParseElements(tokens);
    if es.Failure? {
      return Failure(es.error);
    }
    r := ParseEnd(tokens, es.value, close);
  }

  /** The element loop of a compound: expressions, each followed by trivia, until a comp-ender is peeked. */
  method ParseElements(tokens: Lexer) returns (r: Result<seq<Expr>, ParseError>)
    requires tokens.Valid()
    modifies tokens
    ensures tokens.Valid()
    ensures ElementsFrom(old(tokens.Stream()), []).Success? ==>
      r == Success(ElementsFrom(old(tokens.Stream()), []).value.exprs) &&
      tokens.Stream() == ElementsFrom(old(tokens.Stream()), []).value.rest
    ensures ElementsFrom(old(tokens.Stream()), []).Failure? ==>
      r == Failure(ElementsFrom(old(tokens.Stream()), []).error)
    decreases |tokens.Stream()|, 3
  {
    ghost var start := tokens.Stream();
    var es: seq<Expr> := [];
    var peek := tokens.Peek();
    while peek.kind !in CompEnders
      invariant tokens.Valid() && peek == Head(tokens.Stream()) && |tokens.Stream()| <= |start|
      invariant ElementsFrom(tokens.Stream(), es) == ElementsFrom(start, [])
      decreases |tokens.Stream()|
    {
      ghost var before := tokens.Stream();
      var e := ParseExpr(tokens);
      if e.Failure? {
        assert ElementsFrom(before, es) == Failure(e.error);
        return Failure(e.error);
      }
      es := es + [e.value];
      var s := SkipTrivia(tokens);
      if s.Fail? {
        return Failure(s.error);
      }
      peek := tokens.Peek();
    }
    r := Success(es);
  }

  /** The end of a compound after its elements `es`: a Dot tail or an Ellipsis, then trivia and `close`. */
  method ParseEnd(tokens: Lexer, es: seq<Expr>, close: TokenKind) returns (r: Result<Expr, ParseError>)
    requires tokens.Valid() && (close == RParen || close == RBracket)
    modifies tokens
    ensures tokens.Valid()
    ensures Yields(r, EndFrom(old(tokens.Stream()), es, close), tokens.Stream())
    decreases |tokens.Stream()|, 2
  {
    ghost var start := tokens.Stream();
    var elements := es;
    var final := Expr.Nil;
    var peek := tokens.Peek();
    if peek.kind == Dot {
      var popped := tokens.Pop();
      var f := ParseExpr(tokens);
      if f.Failure? {
        assert TailFrom(start, es) == Failure(f.error);
        return Failure(f.error);
      }
      final := f.value;
    } else if peek.kind == TokenKind.Ellipsis {
      var popped := tokens.Pop();
      var count := EllipsisCount(peek.text);
      elements := elements + [Expr.Ellipsis(count)];
    }
    assert TailFrom(start, es) == Success(Tail(elements, final, tokens.Stream()));
    var closed := ParseClose(tokens, close);
    if closed.Fail? {
      return Failure(closed.error);
    }
    r := Success(FoldCons(elements, final));
  }

  /** Skips trivia, then pops `close`, failing with "expected" and the closer's text if it is not next. */
  method ParseClose(tokens: Lexer, close: TokenKind) returns (o: Outcome<ParseError>)
    requires tokens.Valid() && (close == RParen || close == RBracket)
    modifies tokens
    ensures tokens.Valid()
    ensures CloseFrom(old(tokens.Stream()), close).Success? ==>
      o == Pass && tokens.Stream() == CloseFrom(old(tokens.Stream()), close).value
    ensures CloseFrom(old(tokens.Stream()), close).Failure? ==>
      o == Fail(CloseFrom(old(tokens.Stream()), close).error)
  {
    var s := SkipTrivia(tokens);
    if s.Fail? {
      return s;
    }
    var peek := tokens.Peek();
    if peek.kind != close {
      return Fail(ExpectedCloser(CloserText(close)));
    }
    var popped := tokens.Pop();
    o := Pass;
  }

  /** Reads top-level expressions until Eof is peeked. */
  method ParseFile(tokens: Lexer) returns (r: Result<seq<Expr>, ParseError>)
    requires tokens.Valid()
    modifies tokens
    ensures r == FileFrom(old(tokens.Stream()), [])
  {
    var exprs: seq<Expr> := [];
    var peek := tokens.Peek();
    while peek.kind != Eof
      invariant tokens.Valid() && peek == Head(tokens.Stream())
      invariant FileFrom(tokens.Stream(), exprs) == FileFrom(old(tokens.Stream()), [])
      decreases |tokens.Stream()|
    {
      var e := ParseExpr(tokens);
      if e.Failure? {
        return Failure(e.error);
      }
      exprs := exprs + [e.value];
      peek := tokens.Peek();
    }
    return Success(exprs);
  }

  /** `parseFile` with trivia skipped before each look for Eof, as the grammar has it. */
  method ParseFileByGrammar(tokens: Lexer) returns (r: Result<seq<Expr>, ParseError>)
    requires tokens.Valid()
    modifies tokens
    ensures r == GrammarFileFrom(old(tokens.Stream()), [])
  {
    var exprs: seq<Expr> := [];
    while true
      invariant tokens.Valid()
      invariant GrammarFileFrom(tokens.Stream(), exprs) == GrammarFileFrom(old(tokens.Stream()), [])
      decreases |tokens.Stream()|
    {
      ghost var before := tokens.Stream();
      var s := SkipTrivia(tokens);
      if s.Fail? {
        return Failure(s.error);
      }
      var peek := tokens.Peek();
      if peek.kind == Eof {
        return Success(exprs);
      }
      var e := ParseExpr(tokens);
      if e.Failure? {
        return Failure(e.error);
      }
      exprs := exprs + [e.value];
    }
  }

  /** `parseFile(new Lexer(src))`: the reader run on a fresh lexer over `src`. */
  method Parse(src: string) returns (r: Result<seq<Expr>, ParseError>)
    ensures r == ParseSource(src)
  {
    var tokens := new Lexer(src);
    r := ParseFile(tokens);
  }
}
