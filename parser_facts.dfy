/**
 * Properties of the reader of packages/syntax/lib/parser.ts, stated over the
 * functions `SkipTriviaFrom`, `ExprFrom`, `CompFrom`, ... that the parsing
 * methods are proved to agree with. They hold for any token stream; where a
 * property needs the lexer's guarantees, it asks for `AllWellSpelled`, which
 * every stream the lexer produces satisfies (`TokensWellSpelled`).
 */
module ParserFacts {
  import opened Wrappers
  import opened Lexing
  import opened Exprs
  import opened Parsing

  // ---------------------------------------------------------------------
  // The fold that builds compounds

  /** A list's elements and final cdr, read from the front: the reference for `FoldCons`. */
  function ListOf(es: seq<Expr>, tail: Expr): Expr {
    if es == [] then tail else Expr.Cons(es[0], ListOf(es[1..], tail))
  }

  /** Folding from the right (as `reduceRight` does) builds the list read from the front. */
  lemma {:induction false} FoldConsIsList(es: seq<Expr>, tail: Expr)
    ensures FoldCons(es, tail) == ListOf(es, tail)
    decreases |es|
  {
    if es != [] {
      var n := |es|;
      var init, last := es[..n - 1], es[n - 1];
      FoldConsIsList(init, Expr.Cons(last, tail));
      ListOfAppend(init, [last], tail);
      assert init + [last] == es;
      assert ListOf([last], tail) == Expr.Cons(last, ListOf([], tail));
    }
  }

  lemma {:induction false} ListOfAppend(xs: seq<Expr>, ys: seq<Expr>, tail: Expr)
    ensures ListOf(xs + ys, tail) == ListOf(xs, ListOf(ys, tail))
    decreases |xs|
  {
    if xs == [] {
      assert xs + ys == ys;
    } else {
      assert (xs + ys)[0] == xs[0];
      assert (xs + ys)[1..] == xs[1..] + ys;
      ListOfAppend(xs[1..], ys, tail);
    }
  }

  /** Folding a concatenation folds the front onto the fold of the back. */
  lemma FoldConsAppend(xs: seq<Expr>, ys: seq<Expr>, tail: Expr)
    ensures FoldCons(xs + ys, tail) == FoldCons(xs, FoldCons(ys, tail))
  {
    FoldConsIsList(xs + ys, tail);
    FoldConsIsList(ys, tail);
    FoldConsIsList(xs, FoldCons(ys, tail));
    ListOfAppend(xs, ys, tail);
  }

  /** The elements and final cdr of a Cons chain: the inverse of the fold. */
  datatype Spine = Spine(elements: seq<Expr>, tail: Expr)

  function SpineOf(e: Expr): (s: Spine)
    ensures !s.tail.Cons?
  {
    match e
    case Cons(car, cdr) => var s := SpineOf(cdr); Spine([car] + s.elements, s.tail)
    case _ => Spine([], e)
  }

  /** Taking a folded compound apart gives back its elements and its tail, when the tail is no Cons. */
  lemma {:induction false} SpineOfFold(es: seq<Expr>, tail: Expr)
    requires !tail.Cons?
    ensures SpineOf(FoldCons(es, tail)) == Spine(es, tail)
    decreases |es|
  {
    FoldConsIsList(es, tail);
    if es != [] {
      FoldConsIsList(es[1..], tail);
      SpineOfFold(es[1..], tail);
      assert [es[0]] + es[1..] == es;
    }
  }

  // ---------------------------------------------------------------------
  // What the reader pops from a stream

  /** `rest` is what is left of `ts` once some tokens are popped from its front. */
  predicate Suffix(rest: seq<Token>, ts: seq<Token>) {
    |rest| <= |ts| && ts[|ts| - |rest|..] == rest
  }

  /** Popping from `ts` down to `rest` pops no Unknown token on the way. */
  predicate Clean(ts: seq<Token>, rest: seq<Token>)
    decreases |ts|
  {
    ts == rest || (ts != [] && ts[0].kind != Unknown && Clean(ts[1..], rest))
  }

  /** The last token popped from `ts` down to `rest` is of kind `kind`. */
  predicate PoppedLast(ts: seq<Token>, rest: seq<Token>, kind: TokenKind) {
    Suffix(rest, ts) && |rest| < |ts| && ts[|ts| - |rest| - 1].kind == kind
  }

  lemma {:induction false} CleanTrans(a: seq<Token>, b: seq<Token>, c: seq<Token>)
    requires Clean(a, b) && Clean(b, c)
    ensures Clean(a, c)
    decreases |a|
  {
    if a != b {
      CleanTrans(a[1..], b, c);
    }
  }

  lemma {:induction false} CleanSuffix(ts: seq<Token>, rest: seq<Token>)
    requires Clean(ts, rest)
    ensures Suffix(rest, ts)
    decreases |ts|
  {
    if ts != rest {
      CleanSuffix(ts[1..], rest);
      assert ts[1..][|ts| - 1 - |rest|..] == ts[|ts| - |rest|..];
    }
  }

  lemma {:induction false} CleanNoUnknown(ts: seq<Token>)
    requires Clean(ts, [])
    ensures forall k :: 0 <= k < |ts| ==> ts[k].kind != Unknown
    decreases |ts|
  {
    if ts != [] {
      CleanNoUnknown(ts[1..]);
      assert forall k :: 1 <= k < |ts| ==> ts[k] == ts[1..][k - 1];
    }
  }

  lemma CleanPop(ts: seq<Token>)
    requires ts != [] && ts[0].kind != Unknown
    ensures Clean(ts, Drop(ts))
  {
    assert Clean(ts[1..], ts[1..]);
  }

  /** Popping the first token of a suffix of `ts` makes it the last token popped from `ts`. */
  lemma PopLast(ts: seq<Token>, k: seq<Token>)
    requires Suffix(k, ts) && k != []
    ensures PoppedLast(ts, Drop(k), k[0].kind)
  {
    assert ts[|ts| - |k|..][0] == ts[|ts| - |k|];
    assert ts[|ts| - |k| + 1..] == ts[|ts| - |k|..][1..];
  }

  lemma SuffixLast(a: seq<Token>, b: seq<Token>, rest: seq<Token>, kind: TokenKind)
    requires Suffix(b, a) && PoppedLast(b, rest, kind)
    ensures PoppedLast(a, rest, kind)
  {
    var off := |a| - |b|;
    assert b[|b| - |rest| - 1] == a[off + |b| - |rest| - 1];
    assert a[|a| - |rest|..] == b[|b| - |rest|..];
  }

  lemma AllWellSpelledSuffix(ts: seq<Token>, rest: seq<Token>)
    requires AllWellSpelled(ts) && Suffix(rest, ts)
    ensures AllWellSpelled(rest)
  {
    forall k | 0 <= k < |rest|
      ensures WellSpelled(rest[k])
    {
      assert rest[k] == ts[|ts| - |rest| + k];
    }
  }

  // ---------------------------------------------------------------------
  // Trivia

  predicate IsLayout(k: TokenKind) {
    k == Whitespace || k == LineComment
  }

  /** The number of Whitespace and LineComment tokens at the front of `ts`. */
  function LayoutRun(ts: seq<Token>): (n: nat)
    ensures n <= |ts|
    ensures forall k :: 0 <= k < n ==> IsLayout(ts[k].kind)
    ensures n < |ts| ==> !IsLayout(ts[n].kind)
  {
    if ts != [] && IsLayout(ts[0].kind) then 1 + LayoutRun(ts[1..]) else 0
  }

  /**
   * skipTrivia in terms of the token stream: it steps over the run of
   * Whitespace and LineComment tokens at the front and stops at the first
   * other token; when that token is Unknown it fails naming its text, so
   * Unknown tokens are never skipped.
   */
  lemma {:induction false} SkipTriviaTokens(ts: seq<Token>)
    ensures var n := LayoutRun(ts);
      SkipTriviaFrom(ts) ==
        if n < |ts| && ts[n].kind == Unknown then Failure(UnknownToken(ts[n].text)) else Success(ts[n..])
    decreases |ts|
  {
    if ts != [] && IsLayout(ts[0].kind) {
      var n := LayoutRun(ts);
      SkipTriviaTokens(ts[1..]);
      assert ts[1..][n - 1..] == ts[n..];
      assert n < |ts| ==> ts[1..][n - 1] == ts[n];
    }
  }

  lemma {:induction false} CleanSkip(ts: seq<Token>)
    requires SkipTriviaFrom(ts).Success?
    ensures Clean(ts, SkipTriviaFrom(ts).value)
    decreases |ts|
  {
    if Head(ts).kind in Trivia {
      CleanSkip(Drop(ts));
      CleanPop(ts);
      CleanTrans(ts, Drop(ts), SkipTriviaFrom(ts).value);
    }
  }

  /** Skips trivia and then pops one token that is not Eof. */
  lemma CleanSkipPop(ts: seq<Token>)
    requires SkipTriviaFrom(ts).Success? && Head(SkipTriviaFrom(ts).value).kind != Eof
    ensures Clean(ts, Drop(SkipTriviaFrom(ts).value))
  {
    var k := SkipTriviaFrom(ts).value;
    CleanSkip(ts);
    CleanPop(k);
    CleanTrans(ts, k, Drop(k));
  }

  // ---------------------------------------------------------------------
  // Expressions

  /** The token kinds that end an expression's reading at once with "expected an expression". */
  predicate BeginsNoExpression(k: TokenKind) {
    k == RParen || k == RBracket || k == Dot || k == TokenKind.Ellipsis || k == Ellipsis1 || k == Eof
  }

  /**
   * After trivia, an expression is read from its first token: a Number, Boolean
   * or Symbol token is a leaf carrying its text (a Boolean is true exactly for
   * `#t`), a closer, Dot, Ellipsis, Ellipsis1 or Eof is "expected an
   * expression", and only the reader sugar and the openers read further.
   */
  lemma ExprStart(ts: seq<Token>)
    requires SkipTriviaFrom(ts).Success?
    ensures var k := SkipTriviaFrom(ts).value;
      var t, after := Head(k), Drop(k);
      (t.kind == TokenKind.Number ==> ExprFrom(ts) == Success(Read(Expr.Number(t.text), after))) &&
      (t.kind == TokenKind.Symbol ==> ExprFrom(ts) == Success(Read(Expr.Symbol(t.text), after))) &&
      (t.kind == TokenKind.Boolean ==> ExprFrom(ts) == Success(Read(Expr.Boolean(t.text == "#t"), after))) &&
      (BeginsNoExpression(t.kind) ==> ExprFrom(ts) == Failure(ExpectedExpression)) &&
      (t.kind in Special || t.kind == LParen || t.kind == LBracket ||
       t.kind in {TokenKind.Number, TokenKind.Symbol, TokenKind.Boolean} || BeginsNoExpression(t.kind))
  {
  }

  /**
   * Reader sugar: `'`, `` ` ``, `,` and `,@` followed by an expression X read as
   * the two-element list of `quote`, `quasiquote`, `unquote` or
   * `unquote-splicing` and X; an error inside X is the error of the whole.
   */
  lemma Sugar(ts: seq<Token>)
    requires SkipTriviaFrom(ts).Success? && Head(SkipTriviaFrom(ts).value).kind in Special
    ensures var k := SkipTriviaFrom(ts).value;
      var name := SpecialSymbol(Head(k).kind);
      var inner := ExprFrom(Drop(k));
      ExprFrom(ts) ==
        if inner.Failure? then Failure(inner.error)
        else Success(Read(ListOf([Expr.Symbol(name), inner.value.expr], Expr.Nil), inner.value.rest))
    ensures var kind := Head(SkipTriviaFrom(ts).value).kind;
      SpecialSymbol(kind) ==
        if kind == Quote then "quote" else if kind == Backtick then "quasiquote"
        else if kind == Comma then "unquote" else "unquote-splicing"
  {
    var k := SkipTriviaFrom(ts).value;
    var inner := ExprFrom(Drop(k));
    if inner.Success? {
      var e := inner.value.expr;
      assert ListOf([e], Expr.Nil) == Expr.Cons(e, ListOf([], Expr.Nil));
      assert [Expr.Symbol(SpecialSymbol(Head(k).kind)), e][1..] == [e];
    }
  }

  // ---------------------------------------------------------------------
  // Compounds

  /** An opener followed, after trivia, by its own closer reads as Nil. */
  lemma EmptyCompound(ts: seq<Token>, open: TokenKind)
    requires open == LParen || open == LBracket
    requires SkipTriviaFrom(ts).Success? && Head(SkipTriviaFrom(ts).value).kind == CloserFor(open)
    ensures CompFrom(ts, open) == Success(Read(Expr.Nil, Drop(SkipTriviaFrom(ts).value)))
  {
  }

  /**
   * The tail that follows the elements: after a Dot the one expression read is
   * the final cdr; an Ellipsis (always spelled `...`, so its count is 0) is
   * appended as the last element and the final cdr stays Nil; anything else
   * leaves the elements as they are, ending in Nil.
   */
  lemma TailShapes(ts: seq<Token>, es: seq<Expr>)
    requires AllWellSpelled(ts)
    ensures var t := Head(ts);
      TailFrom(ts, es) ==
        if t.kind == Dot then
          if ExprFrom(Drop(ts)).Failure? then Failure(ExprFrom(Drop(ts)).error)
          else Success(Tail(es, ExprFrom(Drop(ts)).value.expr, ExprFrom(Drop(ts)).value.rest))
        else if t.kind == TokenKind.Ellipsis then Success(Tail(es + [Expr.Ellipsis(0)], Expr.Nil, Drop(ts)))
        else Success(Tail(es, Expr.Nil, ts))
  {
    if Head(ts).kind == TokenKind.Ellipsis {
      assert WellSpelled(ts[0]);
      EllipsisCountZero(ts[0].text);
    }
  }

  /** The count of an Ellipsis spelled `...` is 0: what follows its first two characters is `.`, no number. */
  lemma EllipsisCountZero(text: string)
    requires text == "..."
    ensures EllipsisCount(text) == 0
  {
    assert text[2..] == ".";
    assert !AllDigits(text[2..]) by {
      assert !IsDigit(text[2..][0]);
    }
  }

  // ---------------------------------------------------------------------
  // What a successful read pops: no Unknown token, and a compound's own closer last

  lemma {:induction false} CleanExpr(ts: seq<Token>)
    requires ExprFrom(ts).Success?
    ensures Clean(ts, ExprFrom(ts).value.rest)
    decreases |ts|, 1
  {
    var k := SkipTriviaFrom(ts).value;
    var t := Head(k);
    CleanSkipPop(ts);
    if t.kind in Special {
      CleanExpr(Drop(k));
      CleanTrans(ts, Drop(k), ExprFrom(ts).value.rest);
    } else if t.kind == LParen || t.kind == LBracket {
      CleanComp(Drop(k), t.kind);
      CleanTrans(ts, Drop(k), ExprFrom(ts).value.rest);
    }
  }

  lemma {:induction false} CleanComp(ts: seq<Token>, open: TokenKind)
    requires (open == LParen || open == LBracket) && CompFrom(ts, open).Success?
    ensures Clean(ts, CompFrom(ts, open).value.rest)
    decreases |ts|, 4
  {
    var k := SkipTriviaFrom(ts).value;
    if Head(k).kind == CloserFor(open) {
      CleanSkipPop(ts);
    } else {
      var elements := ElementsFrom(k, []).value;
      CleanSkip(ts);
      CleanElements(k, []);
      CleanEnd(elements.rest, elements.exprs, CloserFor(open));
      CleanTrans(ts, k, elements.rest);
      CleanTrans(ts, elements.rest, CompFrom(ts, open).value.rest);
    }
  }

  lemma {:induction false} CleanEnd(ts: seq<Token>, es: seq<Expr>, close: TokenKind)
    requires (close == RParen || close == RBracket) && EndFrom(ts, es, close).Success?
    ensures Clean(ts, EndFrom(ts, es, close).value.rest)
    decreases |ts|, 3
  {
    var tail := TailFrom(ts, es).value;
    CleanTail(ts, es);
    CleanSkipPop(tail.rest);
    CleanTrans(ts, tail.rest, EndFrom(ts, es, close).value.rest);
  }

  lemma {:induction false} CleanElements(ts: seq<Token>, acc: seq<Expr>)
    requires ElementsFrom(ts, acc).Success?
    ensures Clean(ts, ElementsFrom(ts, acc).value.rest)
    decreases |ts|, 2
  {
    if Head(ts).kind !in CompEnders {
      var e := ExprFrom(ts).value;
      var k := SkipTriviaFrom(e.rest).value;
      CleanExpr(ts);
      CleanSkip(e.rest);
      CleanElements(k, acc + [e.expr]);
      CleanTrans(ts, e.rest, k);
      CleanTrans(ts, k, ElementsFrom(ts, acc).value.rest);
    }
  }

  lemma {:induction false} CleanTail(ts: seq<Token>, es: seq<Expr>)
    requires TailFrom(ts, es).Success?
    ensures Clean(ts, TailFrom(ts, es).value.rest)
    decreases |ts|, 2
  {
    var t := Head(ts);
    if t.kind == Dot {
      CleanPop(ts);
      CleanExpr(Drop(ts));
      CleanTrans(ts, Drop(ts), TailFrom(ts, es).value.rest);
    } else if t.kind == TokenKind.Ellipsis {
      CleanPop(ts);
    }
  }

  lemma {:induction false} CleanFile(ts: seq<Token>, acc: seq<Expr>)
    requires AllWellSpelled(ts) && FileFrom(ts, acc).Success?
    ensures Clean(ts, [])
    decreases |ts|
  {
    if ts != [] {
      assert WellSpelled(ts[0]);
      var e := ExprFrom(ts).value;
      CleanExpr(ts);
      CleanSuffix(ts, e.rest);
      AllWellSpelledSuffix(ts, e.rest);
      CleanFile(e.rest, acc + [e.expr]);
      CleanTrans(ts, e.rest, []);
    }
  }

  /** A source the reader accepts holds no Unknown token anywhere: Unknown is never dropped silently. */
  lemma AcceptedHasNoUnknown(src: string)
    ensures ParseSource(src).Success? ==>
      forall k :: 0 <= k < |Tokens(src, 0)| ==> Tokens(src, 0)[k].kind != Unknown
  {
    if ParseSource(src).Success? {
      TokensWellSpelled(src, 0);
      CleanFile(Tokens(src, 0), []);
      CleanNoUnknown(Tokens(src, 0));
    }
  }

  /** The closer is the last token `CloseFrom` pops. */
  lemma CloseLast(ts: seq<Token>, close: TokenKind)
    requires (close == RParen || close == RBracket) && CloseFrom(ts, close).Success?
    ensures PoppedLast(ts, CloseFrom(ts, close).value, close)
  {
    var k := SkipTriviaFrom(ts).value;
    CleanSkip(ts);
    CleanSuffix(ts, k);
    PopLast(ts, k);
  }

  /** A compound's end that reads successfully has popped its closer last. */
  lemma EndCloses(ts: seq<Token>, es: seq<Expr>, close: TokenKind)
    requires (close == RParen || close == RBracket) && EndFrom(ts, es, close).Success?
    ensures PoppedLast(ts, EndFrom(ts, es, close).value.rest, close)
  {
    var tail := TailFrom(ts, es).value;
    CleanTail(ts, es);
    CleanSuffix(ts, tail.rest);
    CloseLast(tail.rest, close);
    SuffixLast(ts, tail.rest, EndFrom(ts, es, close).value.rest, close);
  }

  /**
   * A compound that reads successfully ends with the closer of its opener's own
   * family: the last token it pops is `)` after `(` and `]` after `[`.
   */
  lemma CompoundCloses(ts: seq<Token>, open: TokenKind)
    requires open == LParen || open == LBracket
    ensures CompFrom(ts, open).Success? ==> PoppedLast(ts, CompFrom(ts, open).value.rest, CloserFor(open))
  {
    if CompFrom(ts, open).Success? {
      var k := SkipTriviaFrom(ts).value;
      CleanSkip(ts);
      CleanSuffix(ts, k);
      if Head(k).kind == CloserFor(open) {
        PopLast(ts, k);
      } else {
        var elements := ElementsFrom(k, []).value;
        CleanElements(k, []);
        CleanTrans(ts, k, elements.rest);
        CleanSuffix(ts, elements.rest);
        EndCloses(elements.rest, elements.exprs, CloserFor(open));
        SuffixLast(ts, elements.rest, CompFrom(ts, open).value.rest, CloserFor(open));
      }
    }
  }

  // ---------------------------------------------------------------------
  // One routine at a time, on a stream of a given shape

  /** A token that is not trivia heads the stream as it is; popping it leaves `rest`. */
  lemma NoTrivia(t: Token, rest: seq<Token>)
    requires t.kind !in Trivia
    ensures SkipTriviaFrom([t] + rest) == Success([t] + rest)
    ensures Head([t] + rest) == t && Drop([t] + rest) == rest
  {
    assert ([t] + rest)[1..] == rest;
  }

  /** Whitespace is skipped. */
  lemma SkipSpace(w: Token, rest: seq<Token>)
    requires w.kind == Whitespace
    ensures SkipTriviaFrom([w] + rest) == SkipTriviaFrom(rest)
  {
    assert Drop([w] + rest) == rest;
  }

  /** A symbol token, once the trivia before it is skipped, reads as that symbol. */
  lemma ReadSymbol(ts: seq<Token>, a: Token, rest: seq<Token>)
    requires a.kind == TokenKind.Symbol && SkipTriviaFrom(ts) == Success([a] + rest)
    ensures ExprFrom(ts) == Success(Read(Expr.Symbol(a.text), rest))
  {
    NoTrivia(a, rest);
  }

  /** An opener in expression position reads the rest as a compound. */
  lemma ReadOpen(open: Token, rest: seq<Token>)
    requires open.kind == LParen || open.kind == LBracket
    ensures ExprFrom([open] + rest) == CompFrom(rest, open.kind)
  {
    NoTrivia(open, rest);
  }

  /** A symbol element joins the elements read so far; the trivia after it is skipped. */
  lemma SymbolElement(a: Token, rest: seq<Token>, acc: seq<Expr>)
    requires a.kind == TokenKind.Symbol && SkipTriviaFrom(rest).Success?
    ensures ElementsFrom([a] + rest, acc) == ElementsFrom(SkipTriviaFrom(rest).value, acc + [Expr.Symbol(a.text)])
  {
    NoTrivia(a, rest);
    ReadSymbol([a] + rest, a, rest);
  }

  /** A compound whose first token is not its closer: its elements, then its end. */
  lemma CompElements(ts: seq<Token>, open: TokenKind, es: seq<Expr>, rest: seq<Token>)
    requires open == LParen || open == LBracket
    requires Head(ts).kind !in Trivia && Head(ts).kind != CloserFor(open)
    requires ElementsFrom(ts, []) == Success(Elements(es, rest))
    ensures CompFrom(ts, open) == EndFrom(rest, es, CloserFor(open))
  {
  }

  /** The closer that is due is popped. */
  lemma CloseWith(c: Token, rest: seq<Token>)
    requires c.kind == RParen || c.kind == RBracket
    ensures CloseFrom([c] + rest, c.kind) == Success(rest)
  {
    NoTrivia(c, rest);
  }

  /** With neither Dot nor Ellipsis after the elements, the compound ends at its closer as a proper list. */
  lemma PlainEnd(ts: seq<Token>, es: seq<Expr>, close: TokenKind)
    requires close == RParen || close == RBracket
    requires Head(ts).kind != Dot && Head(ts).kind != TokenKind.Ellipsis
    ensures EndFrom(ts, es, close) ==
      if CloseFrom(ts, close).Failure? then Failure(CloseFrom(ts, close).error)
      else Success(Read(FoldCons(es, Expr.Nil), CloseFrom(ts, close).value))
  {
  }

  /** After a Dot the one expression read is the final cdr, and then the closer is due. */
  lemma DotEnd(d: Token, rest: seq<Token>, es: seq<Expr>, close: TokenKind)
    requires close == RParen || close == RBracket
    requires d.kind == Dot && ExprFrom(rest).Success?
    ensures var f := ExprFrom(rest).value;
      EndFrom([d] + rest, es, close) ==
        if CloseFrom(f.rest, close).Failure? then Failure(CloseFrom(f.rest, close).error)
        else Success(Read(FoldCons(es, f.expr), CloseFrom(f.rest, close).value))
  {
    NoTrivia(d, rest);
  }

  /** An Ellipsis becomes the last element, with the count its text carries, and the list ends in Nil at the closer. */
  lemma EllipsisEnd(e: Token, rest: seq<Token>, es: seq<Expr>, close: TokenKind)
    requires close == RParen || close == RBracket
    requires e.kind == TokenKind.Ellipsis
    ensures EndFrom([e] + rest, es, close) ==
      if CloseFrom(rest, close).Failure? then Failure(CloseFrom(rest, close).error)
      else Success(Read(FoldCons(es + [Expr.Ellipsis(EllipsisCount(e.text))], Expr.Nil), CloseFrom(rest, close).value))
  {
    NoTrivia(e, rest);
  }

  /** A token that begins no expression, once the trivia before it is skipped, is the error "expected an expression". */
  lemma ReadNothing(ts: seq<Token>, t: Token, rest: seq<Token>)
    requires SkipTriviaFrom(ts) == Success([t] + rest) && BeginsNoExpression(t.kind)
    ensures ExprFrom(ts) == Failure(ExpectedExpression)
  {
    NoTrivia(t, rest);
  }

  /** Skipping to the end leaves Eof where an expression must come. */
  lemma ReadAtEnd(ts: seq<Token>)
    requires SkipTriviaFrom(ts) == Success([])
    ensures ExprFrom(ts) == Failure(ExpectedExpression)
  {
  }

  /** An expression that fails fails the file. */
  lemma FileFails(ts: seq<Token>, acc: seq<Expr>)
    requires Head(ts).kind != Eof && ExprFrom(ts).Failure?
    ensures FileFrom(ts, acc) == Failure(ExprFrom(ts).error)
  {
  }

  /** A file holding one expression that uses up the stream. */
  lemma FileSingle(ts: seq<Token>, e: Expr)
    requires Head(ts).kind != Eof && ExprFrom(ts) == Success(Read(e, []))
    ensures FileFrom(ts, []) == Success([e])
  {
    assert [] + [e] == [e];
  }

  /** An element is read and the trivia after it skipped; the element loop goes on from there. */
  lemma ElementStep(ts: seq<Token>, acc: seq<Expr>)
    requires Head(ts).kind !in CompEnders && ExprFrom(ts).Success?
    requires SkipTriviaFrom(ExprFrom(ts).value.rest).Success?
    ensures ElementsFrom(ts, acc) ==
      ElementsFrom(SkipTriviaFrom(ExprFrom(ts).value.rest).value, acc + [ExprFrom(ts).value.expr])
  {
  }

  /** A comp-ender next ends the element loop. */
  lemma ElementsEnd(ts: seq<Token>, acc: seq<Expr>)
    requires Head(ts).kind in CompEnders
    ensures ElementsFrom(ts, acc) == Success(Elements(acc, ts))
  {
  }
}
