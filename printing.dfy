/**
 * A printer for the reader's trees, as tokens, and the round trip with the
 * reader of packages/syntax/lib/parser.ts: printing a printable tree and
 * reading the tokens back gives the tree again, whatever follows it, and
 * every tree the reader produces is printable. A proper list prints as its
 * elements between `(` and `)`, a dotted list puts `.` before its final cdr,
 * and an Ellipsis marker, which the reader only ever makes the last element
 * of a proper list, prints as an Ellipsis token carrying its count.
 */
module Printing {
  import opened Wrappers
  import opened Lexing
  import opened Exprs
  import opened Parsing
  import opened ParserFacts
  import opened FileGrammar

  // ---------------------------------------------------------------------
  // Ellipsis counts

  /** The decimal digits of `n`, most significant first. */
  function Digits(n: nat): (ds: string)
    decreases n
  {
    var d := ['0' + (n % 10) as char];
    if n < 10 then d else Digits(n / 10) + d
  }

  lemma {:induction false} DigitsValue(n: nat)
    ensures AllDigits(Digits(n)) && DecimalValue(Digits(n)) == n
    decreases n
  {
    var ds := Digits(n);
    if n >= 10 {
      DigitsValue(n / 10);
      assert ds[..|ds| - 1] == Digits(n / 10);
    }
  }

  /** The text an Ellipsis token for `count` carries: `...` for 0, else `..` and the digits. */
  function EllipsisText(count: int): string {
    if count <= 0 then "..." else ".." + Digits(count)
  }

  /** The reader recovers every count that is not negative from the text. */
  lemma EllipsisTextCount(count: int)
    requires count >= 0
    ensures EllipsisCount(EllipsisText(count)) == count
  {
    if count == 0 {
      EllipsisCountZero("...");
    } else {
      DigitsValue(count);
      assert EllipsisText(count)[2..] == Digits(count);
    }
  }

  // ---------------------------------------------------------------------
  // The printer

  /**
   * The trees the printer and the reader agree on: an Ellipsis only as the
   * last element of a proper list, with a count that is not negative.
   */
  predicate Printable(e: Expr) {
    match e
    case Ellipsis(_) => false
    case Cons(car, cdr) => if car.Ellipsis? then car.count >= 0 && cdr.Nil? else Printable(car) && Printable(cdr)
    case _ => true
  }

  function Print(e: Expr): (ts: seq<Token>)
    decreases e, 1
  {
    match e
    case Number(lexeme) => [Token(TokenKind.Number, lexeme)]
    case Boolean(value) => [Token(TokenKind.Boolean, if value then "#t" else "#f")]
    case Symbol(name) => [Token(TokenKind.Symbol, name)]
    case Nil => [Token(LParen, "("), Token(RParen, ")")]
    case Ellipsis(count) => [Token(TokenKind.Ellipsis, EllipsisText(count))]
    case Cons(_, _) => [Token(LParen, "(")] + PrintItems(e) + [Token(RParen, ")")]
  }

  /** The inside of a list: its elements and, for a dotted list, `.` and the final cdr. */
  function PrintItems(e: Expr): (ts: seq<Token>)
    requires e.Cons?
    decreases e, 0
  {
    Print(e.car) +
      if e.cdr.Cons? then PrintItems(e.cdr)
      else if e.cdr.Nil? then []
      else [Token(Dot, ".")] + Print(e.cdr)
  }

  /** A top-level sequence of trees, one after the other. */
  function PrintAll(es: seq<Expr>): seq<Token> {
    if es == [] then [] else Print(es[0]) + PrintAll(es[1..])
  }

  /** What a printed tree starts with: a token that begins an expression, so neither trivia nor a comp-ender. */
  lemma PrintStart(e: Expr)
    requires Printable(e)
    ensures Print(e) != [] && Print(e)[0].kind in {TokenKind.Number, TokenKind.Boolean, TokenKind.Symbol, LParen}
  {
  }

  // ---------------------------------------------------------------------
  // Reading a printed tree

  /** Folding an element onto a tail, after the elements read so far. */
  lemma FoldStep(acc: seq<Expr>, car: Expr, cdr: Expr)
    ensures FoldCons(acc + [car], cdr) == FoldCons(acc, Expr.Cons(car, cdr))
  {
    FoldConsAppend(acc, [car], cdr);
    assert [car][..0] == [];
  }

  /**
   * The inside of a printed list, then `)` and `rest`, reads back: the
   * element loop and the end of the compound give the list folded onto the
   * elements `acc` read before it, and leave `rest`.
   */
  predicate ItemsReadBack(e: Expr, acc: seq<Expr>, rest: seq<Token>)
    requires e.Cons?
  {
    var elements := ElementsFrom(PrintItems(e) + ([Token(RParen, ")")] + rest), acc);
    elements.Success? &&
    EndFrom(elements.value.rest, elements.value.exprs, RParen) == Success(Read(FoldCons(acc, e), rest))
  }

  /** A printed tree reads back as itself, and the stream after it is left as it was. */
  lemma {:induction false} PrintRead(e: Expr, rest: seq<Token>)
    requires Printable(e)
    ensures ExprFrom(Print(e) + rest) == Success(Read(e, rest))
    decreases e, 1
  {
    if e.Nil? {
      NilRead(rest);
    } else if e.Cons? {
      ItemsRead(e, [], rest);
      ConsRead(e, rest);
    } else {
      AtomRead(e, rest);
    }
  }

  /**
   * Inside a printed list, then `)`: see ItemsReadBack. The first element
   * reads back by PrintRead; after it come the other elements, `.` and the
   * final cdr, or the `)`.
   */
  lemma {:induction false} ItemsRead(e: Expr, acc: seq<Expr>, rest: seq<Token>)
    requires e.Cons? && Printable(e)
    ensures ItemsReadBack(e, acc, rest)
    decreases e, 0
  {
    var close := [Token(RParen, ")")] + rest;
    if e.car.Ellipsis? {
      EllipsisItem(e, acc, rest);
    } else {
      PrintRead(e.car, ItemsAfter(e) + close);
      ElementThen(e, acc, rest);
      if e.cdr.Cons? {
        ItemsRead(e.cdr, acc + [e.car], rest);
        MoreItems(e, acc, rest);
      } else if e.cdr.Nil? {
        LastItem(e, acc, rest);
      } else {
        PrintRead(e.cdr, close);
        DottedItem(e, acc, rest);
      }
    }
  }

  /** Numbers, booleans and symbols print as one token each, which reads back as the same tree. */
  lemma AtomRead(e: Expr, rest: seq<Token>)
    requires e.Number? || e.Boolean? || e.Symbol?
    ensures ExprFrom(Print(e) + rest) == Success(Read(e, rest))
  {
    NoTrivia(Print(e)[0], rest);
  }

  /** The empty list prints as `(` `)`, which reads back as Nil. */
  lemma NilRead(rest: seq<Token>)
    ensures ExprFrom(Print(Expr.Nil) + rest) == Success(Read(Expr.Nil, rest))
  {
    var o, c := Token(LParen, "("), Token(RParen, ")");
    assert Print(Expr.Nil) + rest == [o] + ([c] + rest);
    ReadOpen(o, [c] + rest);
    NoTrivia(c, rest);
  }

  /** A list prints as `(`, its inside and `)`; once the inside reads back, so does the list. */
  lemma ConsRead(e: Expr, rest: seq<Token>)
    requires e.Cons? && Printable(e) && ItemsReadBack(e, [], rest)
    ensures ExprFrom(Print(e) + rest) == Success(Read(e, rest))
  {
    var inner := PrintItems(e) + ([Token(RParen, ")")] + rest);
    ConsOpen(e, rest);
    ItemsStart(e);
    NoTrivia(inner[0], inner[1..]);
    assert [inner[0]] + inner[1..] == inner;
    var elements := ElementsFrom(inner, []).value;
    CompElements(inner, LParen, elements.exprs, elements.rest);
    assert FoldCons([], e) == e;
  }

  /** The `(` a printed list starts with opens a compound over the rest. */
  lemma ConsOpen(e: Expr, rest: seq<Token>)
    requires e.Cons?
    ensures ExprFrom(Print(e) + rest) == CompFrom(PrintItems(e) + ([Token(RParen, ")")] + rest), LParen)
  {
    var o := Token(LParen, "(");
    var inner := PrintItems(e) + ([Token(RParen, ")")] + rest);
    assert Print(e) + rest == [o] + inner;
    ReadOpen(o, inner);
  }

  /** The inside of a printed list starts with an element, or with the Ellipsis that ends it. */
  lemma ItemsStart(e: Expr)
    requires e.Cons? && Printable(e)
    ensures PrintItems(e) != []
    ensures PrintItems(e)[0].kind in {TokenKind.Number, TokenKind.Boolean, TokenKind.Symbol, LParen, TokenKind.Ellipsis}
  {
    if !e.car.Ellipsis? {
      PrintStart(e.car);
    }
  }

  /** What follows the first element inside a printed list. */
  function ItemsAfter(e: Expr): (ts: seq<Token>)
    requires e.Cons?
    ensures PrintItems(e) == Print(e.car) + ts
  {
    if e.cdr.Cons? then PrintItems(e.cdr)
    else if e.cdr.Nil? then []
    else [Token(Dot, ".")] + Print(e.cdr)
  }

  /** What follows a printed element inside a list is no trivia: an element, `.`, an Ellipsis or the `)`. */
  lemma AfterStart(e: Expr, rest: seq<Token>)
    requires e.Cons? && Printable(e) && !e.car.Ellipsis?
    ensures var ts := ItemsAfter(e) + ([Token(RParen, ")")] + rest);
      SkipTriviaFrom(ts) == Success(ts)
  {
    if e.cdr.Cons? {
      ItemsStart(e.cdr);
    }
  }

  /** A first element that reads back joins the elements read so far, and the loop goes on after it. */
  lemma ElementThen(e: Expr, acc: seq<Expr>, rest: seq<Token>)
    requires e.Cons? && Printable(e) && !e.car.Ellipsis?
    requires var after := ItemsAfter(e) + ([Token(RParen, ")")] + rest);
      ExprFrom(Print(e.car) + after) == Success(Read(e.car, after))
    ensures var after := ItemsAfter(e) + ([Token(RParen, ")")] + rest);
      ElementsFrom(PrintItems(e) + ([Token(RParen, ")")] + rest), acc) == ElementsFrom(after, acc + [e.car])
  {
    var close := [Token(RParen, ")")] + rest;
    var after := ItemsAfter(e) + close;
    assert PrintItems(e) + close == Print(e.car) + after;
    PrintStart(e.car);
    AfterStart(e, rest);
    ElementStep(Print(e.car) + after, acc);
  }

  /** More elements follow the first: what they read back as is the whole list. */
  lemma MoreItems(e: Expr, acc: seq<Expr>, rest: seq<Token>)
    requires e.Cons? && e.cdr.Cons? && ItemsReadBack(e.cdr, acc + [e.car], rest)
    requires ElementsFrom(PrintItems(e) + ([Token(RParen, ")")] + rest), acc) ==
      ElementsFrom(ItemsAfter(e) + ([Token(RParen, ")")] + rest), acc + [e.car])
    ensures ItemsReadBack(e, acc, rest)
  {
    FoldStep(acc, e.car, e.cdr);
  }

  /** The last element of a proper list: the `)` follows it. */
  lemma LastItem(e: Expr, acc: seq<Expr>, rest: seq<Token>)
    requires e.Cons? && e.cdr.Nil?
    requires ElementsFrom(PrintItems(e) + ([Token(RParen, ")")] + rest), acc) ==
      ElementsFrom(ItemsAfter(e) + ([Token(RParen, ")")] + rest), acc + [e.car])
    ensures ItemsReadBack(e, acc, rest)
  {
    var c := Token(RParen, ")");
    var close := [c] + rest;
    assert ItemsAfter(e) + close == close;
    ElementsEnd(close, acc + [e.car]);
    PlainEnd(close, acc + [e.car], RParen);
    CloseWith(c, rest);
    FoldStep(acc, e.car, e.cdr);
  }

  /** The last element of a dotted list: `.`, the final cdr, which reads back, and the `)`. */
  lemma DottedItem(e: Expr, acc: seq<Expr>, rest: seq<Token>)
    requires e.Cons? && !e.cdr.Cons? && !e.cdr.Nil?
    requires ElementsFrom(PrintItems(e) + ([Token(RParen, ")")] + rest), acc) ==
      ElementsFrom(ItemsAfter(e) + ([Token(RParen, ")")] + rest), acc + [e.car])
    requires var close := [Token(RParen, ")")] + rest;
      ExprFrom(Print(e.cdr) + close) == Success(Read(e.cdr, close))
    ensures ItemsReadBack(e, acc, rest)
  {
    var c := Token(RParen, ")");
    var close := [c] + rest;
    var d := Token(Dot, ".");
    var after := ItemsAfter(e) + close;
    assert after == [d] + (Print(e.cdr) + close);
    ElementsEnd(after, acc + [e.car]);
    DotEnd(d, Print(e.cdr) + close, acc + [e.car], RParen);
    CloseWith(c, rest);
    FoldStep(acc, e.car, e.cdr);
  }

  /** A list whose only element left is an Ellipsis: the element loop stops at it, and the end reads its count. */
  lemma EllipsisItem(e: Expr, acc: seq<Expr>, rest: seq<Token>)
    requires e.Cons? && Printable(e) && e.car.Ellipsis?
    ensures ItemsReadBack(e, acc, rest)
  {
    var c := Token(RParen, ")");
    var close := [c] + rest;
    var t := Print(e.car)[0];
    assert PrintItems(e) + close == [t] + close;
    ElementsEnd([t] + close, acc);
    EllipsisEnd(t, close, acc, RParen);
    EllipsisTextCount(e.car.count);
    CloseWith(c, rest);
    FoldStep(acc, e.car, e.cdr);
  }

  // ---------------------------------------------------------------------
  // Files

  predicate AllPrintable(es: seq<Expr>) {
    forall i :: 0 <= i < |es| ==> Printable(es[i])
  }

  /** The first printed tree of a file is read, and the file loop goes on after it. */
  lemma FileStep(es: seq<Expr>, acc: seq<Expr>)
    requires es != [] && AllPrintable(es)
    ensures AllPrintable(es[1..])
    ensures FileFrom(PrintAll(es), acc) == FileFrom(PrintAll(es[1..]), acc + [es[0]])
  {
    var e, others := es[0], PrintAll(es[1..]);
    assert Printable(e);
    assert forall i :: 0 <= i < |es[1..]| ==> es[1..][i] == es[i + 1];
    assert PrintAll(es) == Print(e) + others;
    PrintStart(e);
    PrintRead(e, others);
    assert Head(Print(e) + others) == Print(e)[0];
  }

  /** Printed trees, one after the other, are read back by the file loop as those trees. */
  lemma {:induction false} PrintAllRead(es: seq<Expr>, acc: seq<Expr>)
    requires AllPrintable(es)
    ensures FileFrom(PrintAll(es), acc) == Success(acc + es)
    decreases |es|
  {
    if es == [] {
      assert acc + es == acc;
    } else {
      assert acc + [es[0]] + es[1..] == acc + es;
      FileStep(es, acc);
      PrintAllRead(es[1..], acc + [es[0]]);
    }
  }

  /** The grammar's file loop reads printed trees back as well. */
  lemma PrintAllGrammar(es: seq<Expr>, acc: seq<Expr>)
    requires AllPrintable(es)
    ensures GrammarFileFrom(PrintAll(es), acc) == Success(acc + es)
  {
    PrintAllRead(es, acc);
    GrammarAgrees(PrintAll(es), acc);
  }

  // ---------------------------------------------------------------------
  // Every tree the reader returns is printable

  /** A list of printable elements with a printable final cdr is printable. */
  lemma {:induction false} ListPrintable(es: seq<Expr>, tail: Expr)
    requires AllPrintable(es) && Printable(tail)
    ensures Printable(ListOf(es, tail))
    decreases |es|
  {
    if es != [] {
      assert Printable(es[0]);
      assert AllPrintable(es[1..]) by {
        assert forall i :: 0 <= i < |es[1..]| ==> es[1..][i] == es[i + 1];
      }
      ListPrintable(es[1..], tail);
    }
  }

  /** A proper list of printable elements whose last element is an Ellipsis with a count that is not negative is printable. */
  lemma {:induction false} EllipsisListPrintable(es: seq<Expr>, count: int)
    requires AllPrintable(es) && count >= 0
    ensures Printable(ListOf(es + [Expr.Ellipsis(count)], Expr.Nil))
    decreases |es|
  {
    var marked := es + [Expr.Ellipsis(count)];
    if es == [] {
      assert marked[1..] == [];
    } else {
      assert marked[0] == es[0] && marked[1..] == es[1..] + [Expr.Ellipsis(count)];
      assert AllPrintable(es[1..]) by {
        assert forall i :: 0 <= i < |es[1..]| ==> es[1..][i] == es[i + 1];
      }
      assert Printable(es[0]);
      EllipsisListPrintable(es[1..], count);
    }
  }

  lemma AllPrintableAppend(es: seq<Expr>, e: Expr)
    requires AllPrintable(es) && Printable(e)
    ensures AllPrintable(es + [e])
  {
    assert forall i :: 0 <= i < |es| ==> (es + [e])[i] == es[i];
  }

  lemma {:induction false} ExprPrintable(ts: seq<Token>)
    requires ExprFrom(ts).Success?
    ensures Printable(ExprFrom(ts).value.expr)
    decreases |ts|, 1
  {
    var k := SkipTriviaFrom(ts).value;
    var t := Head(k);
    if t.kind in Special {
      ExprPrintable(Drop(k));
    } else if t.kind == LParen || t.kind == LBracket {
      CompPrintable(Drop(k), t.kind);
    }
  }

  lemma {:induction false} CompPrintable(ts: seq<Token>, open: TokenKind)
    requires open == LParen || open == LBracket
    requires CompFrom(ts, open).Success?
    ensures Printable(CompFrom(ts, open).value.expr)
    decreases |ts|, 4
  {
    var k := SkipTriviaFrom(ts).value;
    if Head(k).kind != CloserFor(open) {
      var elements := ElementsFrom(k, []).value;
      ElementsPrintable(k, []);
      EndPrintable(elements.rest, elements.exprs, CloserFor(open));
    }
  }

  lemma {:induction false} ElementsPrintable(ts: seq<Token>, acc: seq<Expr>)
    requires AllPrintable(acc) && ElementsFrom(ts, acc).Success?
    ensures AllPrintable(ElementsFrom(ts, acc).value.exprs)
    decreases |ts|, 2
  {
    if Head(ts).kind !in CompEnders {
      var e := ExprFrom(ts).value;
      ExprPrintable(ts);
      AllPrintableAppend(acc, e.expr);
      ElementsPrintable(SkipTriviaFrom(e.rest).value, acc + [e.expr]);
    }
  }

  lemma {:induction false} EndPrintable(ts: seq<Token>, es: seq<Expr>, close: TokenKind)
    requires close == RParen || close == RBracket
    requires AllPrintable(es) && EndFrom(ts, es, close).Success?
    ensures Printable(EndFrom(ts, es, close).value.expr)
    decreases |ts|, 3
  {
    TailPrintable(ts, es);
  }

  lemma {:induction false} TailPrintable(ts: seq<Token>, es: seq<Expr>)
    requires AllPrintable(es) && TailFrom(ts, es).Success?
    ensures var tail := TailFrom(ts, es).value; Printable(FoldCons(tail.exprs, tail.final))
    decreases |ts|, 2
  {
    var tail := TailFrom(ts, es).value;
    FoldConsIsList(tail.exprs, tail.final);
    var t := Head(ts);
    if t.kind == Dot {
      ExprPrintable(Drop(ts));
      ListPrintable(es, tail.final);
    } else if t.kind == TokenKind.Ellipsis {
      EllipsisListPrintable(es, EllipsisCount(t.text));
    } else {
      ListPrintable(es, Expr.Nil);
    }
  }

  lemma {:induction false} FilePrintable(ts: seq<Token>, acc: seq<Expr>)
    requires AllPrintable(acc) && FileFrom(ts, acc).Success?
    ensures AllPrintable(FileFrom(ts, acc).value)
    decreases |ts|
  {
    if Head(ts).kind != Eof {
      var e := ExprFrom(ts).value;
      ExprPrintable(ts);
      AllPrintableAppend(acc, e.expr);
      FilePrintable(e.rest, acc + [e.expr]);
    }
  }

  /** Reading, printing and reading again: a tree read from any stream reads back from its printed tokens. */
  lemma ReadPrintRead(ts: seq<Token>, rest: seq<Token>)
    requires ExprFrom(ts).Success?
    ensures ExprFrom(Print(ExprFrom(ts).value.expr) + rest) == Success(Read(ExprFrom(ts).value.expr, rest))
  {
    ExprPrintable(ts);
    PrintRead(ExprFrom(ts).value.expr, rest);
  }

  /** What the reader returns for a source text is printed as tokens that the reader reads back as the same trees. */
  lemma ParsePrintParse(src: string)
    requires ParseSource(src).Success?
    ensures FileFrom(PrintAll(ParseSource(src).value), []) == ParseSource(src)
  {
    assert AllPrintable([]);
    FilePrintable(Tokens(src, 0), []);
    PrintAllRead(ParseSource(src).value, []);
    assert [] + ParseSource(src).value == ParseSource(src).value;
  }
}
