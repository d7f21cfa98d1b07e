/**
 * The s-expression value of the reader (packages/syntax/lib/expr.ts): a closed
 * six-way variant and its `match` dispatcher with a `_` fallback.
 */
module Exprs {
  import opened Wrappers

  /**
   * A Number keeps the lexeme it was read from (no floating-point conversion);
   * an Ellipsis is the repetition marker with its count.
   */
  datatype Expr =
    | Number(lexeme: string)
    | Boolean(value: bool)
    | Symbol(name: string)
    | Nil
    | Cons(car: Expr, cdr: Expr)
    | Ellipsis(count: int)

  datatype ExprKind = Number | Boolean | Symbol | Nil | Cons | Ellipsis

  /** The `kind` tag each constructor stores: it names exactly the constructor that built the value. */
  function KindOf(e: Expr): (k: ExprKind)
    ensures (k == ExprKind.Number) == e.Number?
    ensures (k == ExprKind.Boolean) == e.Boolean?
    ensures (k == ExprKind.Symbol) == e.Symbol?
    ensures (k == ExprKind.Nil) == e.Nil?
    ensures (k == ExprKind.Cons) == e.Cons?
    ensures (k == ExprKind.Ellipsis) == e.Ellipsis?
  {
    match e
    case Number(_) => ExprKind.Number
    case Boolean(_) => ExprKind.Boolean
    case Symbol(_) => ExprKind.Symbol
    case Nil => ExprKind.Nil
    case Cons(_, _) => ExprKind.Cons
    case Ellipsis(_) => ExprKind.Ellipsis
  }

  /** The handlers given to `match`; any of them may be absent. `fallback` is the source's `_`. */
  datatype Handlers<A> = Handlers(
    number: Option<string -> A>,
    boolean: Option<bool -> A>,
    symbol: Option<string -> A>,
    nil: Option<() -> A>,
    cons: Option<(Expr, Expr) -> A>,
    ellipsis: Option<int -> A>,
    fallback: Option<() -> A>)

  /** The error `match` raises when neither the kind's handler nor `_` is given. */
  datatype MatchError = NonExhaustiveHandlers

  /** The handlers provide a case of their own for kind `k`. */
  predicate Handles<A>(h: Handlers<A>, k: ExprKind) {
    match k
    case Number => h.number.Some?
    case Boolean => h.boolean.Some?
    case Symbol => h.symbol.Some?
    case Nil => h.nil.Some?
    case Cons => h.cons.Some?
    case Ellipsis => h.ellipsis.Some?
  }

  /** What an absent handler falls back to: `_`, or the non-exhaustive error. */
  function Fallback<A>(h: Handlers<A>): (r: Result<A, MatchError>)
    ensures r.Failure? <==> h.fallback.None?
    ensures r.Failure? ==> r.error == NonExhaustiveHandlers
  {
    if h.fallback.Some? then Success(h.fallback.value()) else Failure(NonExhaustiveHandlers)
  }

  /**
   * Dispatches on the kind of `e`: the kind's own handler receives the payload
   * (Cons passes car then cdr, Nil passes nothing); without one, `_` is called;
   * without either, `match` fails.
   */
  function Match<A>(e: Expr, h: Handlers<A>): (r: Result<A, MatchError>)
    ensures r.Failure? <==> !Handles(h, KindOf(e)) && h.fallback.None?
    ensures !Handles(h, KindOf(e)) && h.fallback.Some? ==> r == Success(h.fallback.value())
    ensures e.Number? && h.number.Some? ==> r == Success(h.number.value(e.lexeme))
    ensures e.Boolean? && h.boolean.Some? ==> r == Success(h.boolean.value(e.value))
    ensures e.Symbol? && h.symbol.Some? ==> r == Success(h.symbol.value(e.name))
    ensures e.Nil? && h.nil.Some? ==> r == Success(h.nil.value())
    ensures e.Cons? && h.cons.Some? ==> r == Success(h.cons.value(e.car, e.cdr))
    ensures e.Ellipsis? && h.ellipsis.Some? ==> r == Success(h.ellipsis.value(e.count))
  {
    match e
    case Number(x) => if h.number.Some? then Success(h.number.value(x)) else Fallback(h)
    case Boolean(b) => if h.boolean.Some? then Success(h.boolean.value(b)) else Fallback(h)
    case Symbol(s) => if h.symbol.Some? then Success(h.symbol.value(s)) else Fallback(h)
    case Nil => if h.nil.Some? then Success(h.nil.value()) else Fallback(h)
    case Cons(car, cdr) => if h.cons.Some? then Success(h.cons.value(car, cdr)) else Fallback(h)
    case Ellipsis(n) => if h.ellipsis.Some? then Success(h.ellipsis.value(n)) else Fallback(h)
  }

  /** With a handler for every one of the six kinds, `match` never fails and never consults `_`. */
  lemma ExhaustiveHandlers<A>(e: Expr, h: Handlers<A>)
    requires forall k :: Handles(h, k)
    ensures Match(e, h).Success?
    ensures Match(e, h) == Match(e, h.(fallback := None))
  {
    assert Handles(h, KindOf(e));
  }

  /** With only `_` given, `match` calls it whatever the value. */
  lemma OnlyFallback<A>(e: Expr, h: Handlers<A>)
    requires forall k :: !Handles(h, k)
    requires h.fallback.Some?
    ensures Match(e, h) == Success(h.fallback.value())
  {
    assert !Handles(h, KindOf(e));
  }
}
