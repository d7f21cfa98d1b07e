# A verified model of the `packages/syntax` reader

`packages/syntax/lib` reads a Scheme-like source text into s-expression trees,
in three parts:

- **The lexer** (`lib/lexer.ts`) is a character-driven scanner class. It has a
  cursor `pos` and a one-token lookahead `buffer`. It sorts the text into these
  tokens:
  - delimiters;
  - reader punctuation (`'` `` ` `` `,` `,@`);
  - numbers;
  - `.`, `...` and `..1`;
  - booleans;
  - symbols;
  - whitespace, line comments and unknown runs.
- **The parser** (`lib/parser.ts`) is an LL(1) recursive-descent reader that
  drives the lexer:
  - it skips trivia, and reports an unknown token as an error;
  - it expands the reader sugar into `(quote X)`-style lists;
  - it matches `(`/`)` and `[`/`]`;
  - it folds the elements of a compound into a right-nested `Cons` chain. The
    chain is proper, dotted, or ends with an Ellipsis element.
- **The tree** (`lib/expr.ts`) is a closed six-way tagged value. Its `match`
  dispatcher falls back to a `_` handler.

There is also an older scanner, `packages/syntax/lexer.ts`. It records a source
span for each token, and the parser does not use it.

The Dafny modules follow these files:

| module | file | models |
|---|---|---|
| `Wrappers` | `wrappers.dfy` | `Option`, `Result` and `Outcome`, the library's results and errors as values |
| `Lexing` | `lexing.dfy` | `lib/lexer.ts` |
| `Exprs` | `exprs.dfy` | `lib/expr.ts` |
| `Parsing` | `parsing.dfy` | `lib/parser.ts` |
| `ParserFacts` | `parser_facts.dfy` | the reader's properties |
| `FileGrammar` | `file_grammar.dfy` | the end of a file: the code against its grammar |
| `Printing` | `printing.dfy` | a printer that inverts the reader: the round trip |
| `PrototypeLexing` | `prototype.dfy` | `packages/syntax/lexer.ts` |
| `LexerExamples` | `lexer_examples.dfy` | the token streams of short sources |
| `ReaderExamples` | `reader_examples.dfy` | the trees and errors of short sources |

More on the modules:

- **`Lexing` and `PrototypeLexing`:**
  - Each keeps the source's `Lexer` as a class with the fields `source`, `pos`
    and `buffer`, whose methods update them.
  - `Scan(source, i)` is a pure scanner. `next()` is proved against it, and so
    is its `skipWhile` loop, which is proved against `RunEnd`.
  - A ghost field `mark` records where the token the next `pop()` returns
    begins.
  - For the lib lexer, `Stream()`, the tokens still to come, ties `peek` and
    `pop` to a cursor over the pure token stream `Tokens(source, mark)`.
- **`Parsing`:**
  - Each parsing routine is a function of that stream. The functions are
    `SkipTriviaFrom`, `ExprFrom`, `CompFrom`, `ElementsFrom`, `TailFrom`,
    `CloseFrom`, `EndFrom` and `FileFrom`.
  - Each function gives the tree read and the stream left after it, or the
    first error.
  - The methods `SkipTrivia`, `ParseExpr`, `ParseComp`, `ParseFile` and `Parse`
    drive a `Lexer` as the source does, and each is proved equal to its
    function.
- **`Printing`:** the printer makes the reader's partner. A printable tree,
  once printed, reads back as itself. Every tree the reader returns is
  printable. So parsing, printing and parsing again gives the same trees.

## Model

| member | source | states |
|---|---|---|
| Lexing.RunEnd | packages/syntax/lib/lexer.ts:108-116 | `skipWhile` stops inside the source, at a character that fails the test or at the end |
| Lexing.RunEndPasses | packages/syntax/lib/lexer.ts:108-116 | every character `skipWhile` steps over passes the test, so the run it skips is maximal |
| Lexing.Classify | packages/syntax/lib/lexer.ts:32-101 | every branch of `next()` consumes at least one character, stays inside the source and yields a kind other than Eof |
| Lexing.Scan | packages/syntax/lib/lexer.ts:27-106 | a scan's text is exactly the source between the old and new cursor; it is Eof exactly at the end of the source; any other token is non-empty and advances the cursor |
| Lexing.Tokens | packages/syntax/lib/lexer.ts:27-106 | the stream popped from a cursor before Eof holds at most one token per character still to read, and no Eof |
| Lexing.StreamStep | packages/syntax/lib/lexer.ts:28-30 | a scan reads the head of the stream and leaves the rest; the stream is empty exactly at the end of the source, where the head reads Eof |
| Lexing.ScanAtEnd | packages/syntax/lib/lexer.ts:28-30 | at the end of the source every scan is Eof with empty text and leaves the cursor where it is |
| Lexing.FixedSpelling | packages/syntax/lib/lexer.ts:36-80 | a token of a kind with a fixed spelling carries that spelling: `( ) [ ] ' `` , ,@ . ... ..1`, and Eof the empty text |
| Lexing.ScanDelimiter | packages/syntax/lib/lexer.ts:36-47 | each of `( ) [ ] ' `` is a one-character token of its own kind |
| Lexing.ScanComma | packages/syntax/lib/lexer.ts:48-54 | `,` directly followed by `@` is one CommaAt `,@`; any other `,` is Comma `,` |
| Lexing.NumberRange | packages/syntax/lib/lexer.ts:55-70 | a number consumes an optional `-`, then digits with at most one `.`, and ends at the first character that is not a digit, or at a second `.` |
| Lexing.NumberToken | packages/syntax/lib/lexer.ts:55-70 | a Number token is produced exactly when a number starts here; its text is an optional `-`, then digits with at most one `.`; it is maximal, the next character being neither a digit nor a `.` it could still take |
| Lexing.ScanDot | packages/syntax/lib/lexer.ts:71-80 | a `.` not followed by a digit is Ellipsis `...` before `..`, Ellipsis1 `..1` before `.1`, and Dot otherwise |
| Lexing.ScanHash | packages/syntax/lib/lexer.ts:81-88 | `#t` and `#f` are two-character Booleans; any other `#` starts a maximal Unknown run |
| Lexing.BooleanText | packages/syntax/lib/lexer.ts:81-84 | a Boolean token's text is `#t` or `#f` |
| Lexing.TokensWellSpelled | packages/syntax/lib/lexer.ts:27-106 | every token before Eof is non-empty, carries its kind's fixed spelling, and a Boolean is `#t` or `#f` |
| Lexing.SymbolToken | packages/syntax/lib/lexer.ts:89-91 | a Symbol is produced exactly when a symbol character starts something that is not a number; it is one `startsSymbol` character, then a maximal run of `continuesSymbol` characters |
| Lexing.WhitespaceToken | packages/syntax/lib/lexer.ts:92-94 | Whitespace is produced exactly at a whitespace character, and is a maximal whitespace run |
| Lexing.LineCommentToken | packages/syntax/lib/lexer.ts:95-97 | a LineComment is produced exactly at `;`, and runs up to, not including, the next CR or LF |
| Lexing.UnknownRun | packages/syntax/lib/lexer.ts:98-101 | Unknown is produced exactly at a `#` that begins no boolean, or at a character nothing else accepts; the run stops only at a delimiter, whitespace or `;` |
| Lexing.TokensTile | packages/syntax/lib/lexer.ts:103-105 | the texts of the tokens before Eof, concatenated, are the rest of the source |
| Lexing.Lexer.constructor | packages/syntax/lib/lexer.ts:5-8 | a new lexer has its cursor at 0, nothing buffered, and the whole token stream of its source ahead |
| Lexing.Lexer.Pop | packages/syntax/lib/lexer.ts:10-18 | `pop()` returns the buffered token without moving the cursor and empties the buffer; with nothing buffered it scans a fresh token; either way it returns the head of the stream and leaves the rest |
| Lexing.Lexer.Peek | packages/syntax/lib/lexer.ts:20-25 | `peek()` returns the head of the stream and buffers it; a second `peek()` returns the same token and leaves the cursor unchanged; the stream is unchanged |
| Lexing.Lexer.Next | packages/syntax/lib/lexer.ts:27-106 | `next()` returns exactly the token `Scan` gives at the old cursor and moves the cursor to where that scan stops |
| Lexing.Lexer.SkipWhile | packages/syntax/lib/lexer.ts:108-116 | the loop moves the cursor to the end of the maximal run of characters passing the test |
| Lexing.PopAll | packages/syntax/lib/__tests__/lexer.ts:126-134 | popping until Eof yields exactly the token stream, whose texts tile the source |
| Exprs.KindOf | packages/syntax/lib/expr.ts:6-46 | each constructor yields its own kind, and only that kind, out of exactly six |
| Exprs.Fallback | packages/syntax/lib/expr.ts:49 | an absent handler falls back to `_`; the fallback fails, with the non-exhaustive error, exactly when `_` is absent |
| Exprs.Match | packages/syntax/lib/expr.ts:48-74 | the kind's own handler is called with the payload (Cons gives car then cdr, Nil nothing); without one, `_` is called; `match` fails exactly when both are absent |
| Exprs.ExhaustiveHandlers | packages/syntax/lib/expr.ts:60-73 | with a handler for every kind, `match` never fails and never calls `_` |
| Exprs.OnlyFallback | packages/syntax/lib/expr.ts:49-58 | with only `_` given, every value goes to `_` |
| Parsing.CloserFor | packages/syntax/lib/parser.ts:104-112 | `(` is closed by `)` and `[` by `]`, and by nothing else |
| Parsing.SpecialSymbol | packages/syntax/lib/parser.ts:128-135 | each sugar token has its own head symbol, and no two share one: `'` quote, `` ` `` quasiquote, `,` unquote, `,@` unquote-splicing |
| Parsing.FoldCons | packages/syntax/lib/parser.ts:98 | folding no elements gives the final cdr itself; folding some gives a Cons whose car is the first element |
| Parsing.EllipsisCount | packages/syntax/lib/parser.ts:86-87 | the count is never negative; `...` counts 0, and `..` followed by digits counts their decimal value |
| Parsing.SkipTriviaFrom | packages/syntax/lib/parser.ts:114-126 | skipping trivia stops at a token that is not trivia, and fails only with "unknown token" |
| Parsing.ExprFrom | packages/syntax/lib/parser.ts:42-61 | a successful read consumes at least one token, and the tree it reads is never a bare Ellipsis |
| Parsing.CompFrom | packages/syntax/lib/parser.ts:63-100 | a compound read consumes at least its closer, and is never a bare Ellipsis |
| Parsing.ElementsFrom | packages/syntax/lib/parser.ts:75-78 | the element loop stops only with a comp-ender next, and keeps the elements read before it in front |
| Parsing.TailFrom | packages/syntax/lib/parser.ts:80-89 | the tail keeps the elements and adds at most one, the Ellipsis; the final cdr is never an Ellipsis |
| Parsing.CloseFrom | packages/syntax/lib/parser.ts:91-97 | the closer check consumes at least the closer; it fails only with an unknown token or with "expected" and the due closer |
| Parsing.EndFrom | packages/syntax/lib/parser.ts:80-98 | a compound with elements reads as a Cons whose car is its first element; the end consumes at least the closer and is never a bare Ellipsis |
| Parsing.FileFrom | packages/syntax/lib/parser.ts:32-40 | the expressions of a file come after, and in the order of, those read before |
| Parsing.ParseSource | packages/syntax/lib/parser.ts:32-40 | a source of n characters reads as at most n expressions |
| Parsing.GrammarFileFrom | packages/syntax/lib/parser.ts:3 | the same for the file loop the grammar describes |
| Parsing.SkipTrivia | packages/syntax/lib/parser.ts:114-126 | the loop pops exactly what `SkipTriviaFrom` skips, and reports the Unknown token it meets |
| Parsing.ParseExpr | packages/syntax/lib/parser.ts:42-61 | `parseExpr` returns the tree `ExprFrom` reads, or its error, and leaves the lexer where `ExprFrom` leaves the stream |
| Parsing.ParseComp | packages/syntax/lib/parser.ts:63-100 | `parseComp` agrees with `CompFrom` in tree, error and stream left |
| Parsing.ParseElements | packages/syntax/lib/parser.ts:75-78 | the element loop agrees with `ElementsFrom` |
| Parsing.ParseEnd | packages/syntax/lib/parser.ts:80-98 | the Dot or Ellipsis tail, the closer and the fold agree with `EndFrom` |
| Parsing.ParseClose | packages/syntax/lib/parser.ts:91-97 | the closer check agrees with `CloseFrom`; a wrong closer is "expected" and the closer's text |
| Parsing.ParseFile | packages/syntax/lib/parser.ts:32-40 | `parseFile` returns what `FileFrom` gives on the lexer's stream |
| Parsing.ParseFileByGrammar | packages/syntax/lib/parser.ts:3 | the corrected loop, which skips trivia before looking for Eof, returns what `GrammarFileFrom` gives |
| Parsing.Parse | packages/syntax/lib/parser.ts:32-40 | `parseFile(new Lexer(src))` is `ParseSource(src)` |
| ParserFacts.FoldConsIsList | packages/syntax/lib/parser.ts:98 | the `reduceRight` fold builds the list of the elements in order, front to back, ending in the tail |
| ParserFacts.FoldConsAppend | packages/syntax/lib/parser.ts:98 | folding a concatenation folds the front onto the fold of the back |
| ParserFacts.SpineOfFold | packages/syntax/lib/parser.ts:98 | taking a folded list apart gives back its elements and a tail that is no Cons |
| ParserFacts.SkipTriviaTokens | packages/syntax/lib/parser.ts:114-126 | skipping trivia drops exactly the leading run of whitespace and comments, and fails with the text of an Unknown token that follows it |
| ParserFacts.CleanExpr | packages/syntax/lib/parser.ts:42-61 | a successful read pops no Unknown token |
| ParserFacts.CleanFile | packages/syntax/lib/parser.ts:32-40 | a file that reads successfully pops every token and none of them is Unknown |
| ParserFacts.AcceptedHasNoUnknown | packages/syntax/lib/parser.ts:114-126 | a source the reader accepts has no Unknown token anywhere, so none is dropped silently |
| ParserFacts.ExprStart | packages/syntax/lib/parser.ts:42-61 | Number, Boolean (true exactly for `#t`) and Symbol tokens read as leaves carrying their text; a closer, Dot, Ellipsis, Ellipsis1 or Eof is "expected an expression"; only sugar and openers read on |
| ParserFacts.Sugar | packages/syntax/lib/parser.ts:52-55 | `'`, `` ` ``, `,` and `,@` before X read as the two-element list of `quote`, `quasiquote`, `unquote` or `unquote-splicing` and X |
| ParserFacts.EmptyCompound | packages/syntax/lib/parser.ts:67-70 | an opener followed, after trivia, by its own closer reads as Nil |
| ParserFacts.TailShapes | packages/syntax/lib/parser.ts:80-89 | after the elements, a Dot makes the next expression the final cdr; an Ellipsis becomes one more element, with count 0, before a Nil tail; otherwise the tail is Nil |
| ParserFacts.EllipsisCountZero | packages/syntax/lib/parser.ts:86-87 | the count of `...` is 0, the not-a-number case |
| ParserFacts.CloseLast | packages/syntax/lib/parser.ts:91-97 | the closer check pops its closer last |
| ParserFacts.EndCloses | packages/syntax/lib/parser.ts:80-98 | the end of a compound pops its closer last |
| ParserFacts.CompoundCloses | packages/syntax/lib/parser.ts:63-100 | a compound that reads successfully ends with the closer of its opener's own family |
| FileGrammar.ExprAppend | packages/syntax/lib/parser.ts:42-61 | a successful read never looks past what it consumes: appending tokens to the stream appends them to what is left |
| FileGrammar.SkipLayout | packages/syntax/lib/parser.ts:114-126 | whitespace and comments are skipped to the end of the stream |
| FileGrammar.LayoutOnly | packages/syntax/lib/parser.ts:32-40 | a file of layout alone has no expressions for the grammar's loop, and is "expected an expression" for the code's |
| FileGrammar.GrammarAgrees | packages/syntax/lib/parser.ts:32-40 | wherever the code's file loop succeeds, the grammar's loop gives the same expressions |
| FileGrammar.TrailingLayoutAccepted | packages/syntax/lib/parser.ts:3 | the grammar's loop accepts anything the code accepts followed by layout, with the same expressions |
| FileGrammar.TrailingLayoutRejected | packages/syntax/lib/parser.ts:32-40 | the code's loop rejects, with "expected an expression", every stream it accepts once layout follows it |
| Printing.EllipsisTextCount | packages/syntax/lib/parser.ts:86-87 | the count read from an Ellipsis text is the count it was printed from |
| Printing.PrintRead | packages/syntax/lib/parser.ts:42-61 | a printable tree, printed as tokens, reads back as itself, and what follows it is left untouched |
| Printing.ItemsRead | packages/syntax/lib/parser.ts:63-100 | the inside of a printed list, then `)`, reads back through the element loop and the compound's end as that list, folded onto the elements before it |
| Printing.PrintAllRead | packages/syntax/lib/parser.ts:32-40 | printed trees, one after the other, read back, in order, as those trees |
| Printing.PrintAllGrammar | packages/syntax/lib/parser.ts:3 | the grammar's file loop reads printed trees back too |
| Printing.ExprPrintable | packages/syntax/lib/parser.ts:42-61 | every tree the reader returns is printable: an Ellipsis only ever appears as the last element of a proper list, with a count that is not negative |
| Printing.CompPrintable | packages/syntax/lib/parser.ts:63-100 | the same for every compound the reader returns |
| Printing.TailPrintable | packages/syntax/lib/parser.ts:80-98 | the same for the fold of a compound's elements onto its tail |
| Printing.FilePrintable | packages/syntax/lib/parser.ts:32-40 | the same for every expression of a file |
| Printing.ReadPrintRead | packages/syntax/lib/parser.ts:42-61 | whatever the reader returns, printed and read again, gives the same tree |
| Printing.ParsePrintParse | packages/syntax/lib/parser.ts:32-40 | a source's trees, printed and read again, are the same trees |
| PrototypeLexing.RunEnd | packages/syntax/lexer.ts:141-151 | `readWhile` stops inside the source, at a character that fails the test or at the end |
| PrototypeLexing.RunEndPasses | packages/syntax/lexer.ts:141-151 | every character `readWhile` steps over passes the test |
| PrototypeLexing.Classify | packages/syntax/lexer.ts:31-49 | every branch of `next()` consumes at least one character and yields a kind other than Eof |
| PrototypeLexing.Scan | packages/syntax/lexer.ts:25-54 | a token's span starts at the cursor, its text is the source inside its span, it is Eof exactly at the end, and any other span is non-empty |
| PrototypeLexing.Tokens | packages/syntax/lexer.ts:25-54 | the stream popped from a cursor before Eof holds at most one token per character still to read, and no Eof |
| PrototypeLexing.TokensContiguous | packages/syntax/lexer.ts:51-53 | the spans of consecutive tokens are contiguous, from the start to the end of the source, and each text is the source inside its span |
| PrototypeLexing.ScanAtEnd | packages/syntax/lexer.ts:26-29 | at the end Eof has an empty span at the cursor and empty text |
| PrototypeLexing.SingleToken | packages/syntax/lexer.ts:56-66 | each of `( ) [ ] . ' `` is a one-character token, and `.` is always Dot |
| PrototypeLexing.CommaToken | packages/syntax/lexer.ts:68-75 | `,@` is one CommaAt and any other `,` is Comma |
| PrototypeLexing.NameToken | packages/syntax/lexer.ts:89-92 | a Name is produced exactly at a name character (names are tried before digits, so `-` starts one), and is a maximal run |
| PrototypeLexing.NumToken | packages/syntax/lexer.ts:98-101 | Num is produced exactly at a digit, and is a maximal digit run without sign or fraction |
| PrototypeLexing.HashToken | packages/syntax/lexer.ts:103-111 | `#t` and `#f` are Booleans; any other `#` starts an Unknown run |
| PrototypeLexing.CommentToken | packages/syntax/lexer.ts:113-116 | a Comment is produced exactly at `;` and runs up to, not including, the next LF or CR |
| PrototypeLexing.WhitespaceToken | packages/syntax/lexer.ts:122-125 | Whitespace is produced exactly at whitespace and is a maximal run |
| PrototypeLexing.UnknownToken | packages/syntax/lexer.ts:127-139 | the characters that start Unknown, and an Unknown run stopping at any digit, name character, whitespace or one of ``[]().',;#`` |
| PrototypeLexing.HashX | packages/syntax/__tests__/lexer.ts:35-47 | `#x` is Unknown `#`, then Name `x` |
| PrototypeLexing.Lexer.constructor | packages/syntax/lexer.ts:1-5 | a new lexer starts at 0 with nothing buffered |
| PrototypeLexing.Lexer.Peek | packages/syntax/lexer.ts:7-13 | `peek()` buffers the token scanned at the mark; a second `peek()` returns the same token without rescanning |
| PrototypeLexing.Lexer.Pop | packages/syntax/lexer.ts:15-23 | `pop()` returns and clears the buffered token, or scans a fresh one |
| PrototypeLexing.Lexer.Next | packages/syntax/lexer.ts:25-54 | `next()` returns exactly the token `Scan` gives and moves the cursor to its span's end |
| PrototypeLexing.Lexer.ReadComma | packages/syntax/lexer.ts:68-75 | consumes `@` after `,` and reports CommaAt, and otherwise Comma without moving |
| PrototypeLexing.Lexer.ReadName | packages/syntax/lexer.ts:89-92 | moves to the end of the name run and reports Name |
| PrototypeLexing.Lexer.ReadNum | packages/syntax/lexer.ts:98-101 | moves to the end of the digit run and reports Num |
| PrototypeLexing.Lexer.ReadBoolean | packages/syntax/lexer.ts:103-111 | consumes `t` or `f` and reports Boolean, and otherwise reads an Unknown run |
| PrototypeLexing.Lexer.ReadComment | packages/syntax/lexer.ts:113-116 | moves to the next line end, or the end of the source, and reports Comment |
| PrototypeLexing.Lexer.ReadWhitespace | packages/syntax/lexer.ts:122-125 | moves to the end of the whitespace run and reports Whitespace |
| PrototypeLexing.Lexer.ReadUnknown | packages/syntax/lexer.ts:127-130 | moves to the end of the Unknown run and reports Unknown |
| PrototypeLexing.Lexer.ReadWhile | packages/syntax/lexer.ts:141-151 | the loop moves the cursor to the end of the maximal run passing the test |
| PrototypeLexing.PopAll | packages/syntax/__tests__/lexer.ts:3-9 | popping until Eof yields exactly the token stream, with contiguous spans from the mark to the end |
| LexerExamples.DelimitersTokens | packages/syntax/lib/__tests__/lexer.ts:5-15 | `()[]` is four one-character tokens |
| LexerExamples.PunctuationTokens | packages/syntax/lib/__tests__/lexer.ts:17-33 | `, ,@ . ... ..1` is Comma, CommaAt, Dot, Ellipsis `...` and Ellipsis1 `..1`, with whitespace between |
| LexerExamples.TwoDotsTokens | packages/syntax/lib/__tests__/lexer.ts:17-33 | `..` is two Dots |
| LexerExamples.DotDigitsTokens | packages/syntax/lib/__tests__/lexer.ts:17-33 | `..134` is Ellipsis1 `..1`, then Number `34` |
| LexerExamples.FractionsTokens | packages/syntax/lib/__tests__/lexer.ts:57-67 | `123.456 -12.4 4. .8` is the Numbers `123.456`, `-12.4`, `4.` and `.8`, with whitespace between |
| LexerExamples.NumberEdgesTokens | packages/syntax/lib/__tests__/lexer.ts:69-79 | `123.45.6 -.33` is Number `123.45`, Number `.6`, whitespace, Number `-.33` |
| LexerExamples.DashDotTokens | packages/syntax/lib/lexer.ts:55-70 | `-.)` is Number `-.`, then `)`: a `-` and a `.` start a number with no digit after them |
| LexerExamples.BooleansTokens | packages/syntax/lib/__tests__/lexer.ts:82-92 | `#t #f #something-else` is Boolean `#t`, Boolean `#f` and one Unknown run `#something-else`, with whitespace between |
| LexerExamples.SymbolsTokens | packages/syntax/lib/__tests__/lexer.ts:94-109 | `simple b1 * two-words >>= :<>: Y!` is the seven Symbols `simple`, `b1`, `*`, `two-words`, `>>=`, `:<>:` and `Y!`, with whitespace between |
| LexerExamples.TriviaTokens | packages/syntax/lib/__tests__/lexer.ts:112-124 | `     ;; A comment`, a newline and `;;;; Another comment` are Whitespace, LineComment `;; A comment`, Whitespace `\n` and LineComment `;;;; Another comment` |
| ReaderExamples.MismatchFails | packages/syntax/lib/parser.ts:91-97 | `(a]` fails with "expected" `)` |
| ReaderExamples.UnclosedFails | packages/syntax/lib/parser.ts:91-97 | `(a` fails with "expected" `)` |
| ReaderExamples.DottedTwoFails | packages/syntax/lib/parser.ts:80-97 | `(a . b c)` fails with "expected" `)`: only one expression may follow a Dot |
| ReaderExamples.DotFirstIsTail | packages/syntax/lib/parser.ts:75-83 | `(. b)` reads as `b`: the Dot ends the element loop even before any element |
| ReaderExamples.EllipsisOneFails | packages/syntax/lib/parser.ts:56-60 | `(a ..1)` fails with "expected an expression": Ellipsis1 ends no compound and begins no expression |
| ReaderExamples.QuoteMark | packages/syntax/lib/parser.ts:52-55 | `'x` reads as `(quote x)` |
| ReaderExamples.QuoteList | packages/syntax/lib/parser.ts:63-100 | `(quote x)` reads as the two-element list |
| ReaderExamples.QuoteSugar | packages/syntax/lib/parser.ts:52-55 | `'x` and `(quote x)` read as equal trees |
| ReaderExamples.EmptyCompounds | packages/syntax/lib/parser.ts:67-70 | `()` and `[]` both read as Nil |
| ReaderExamples.EllipsisIsLastElement | packages/syntax/lib/parser.ts:84-88 | `(a b ...)` reads as `Cons(a, Cons(b, Cons(Ellipsis(0), Nil)))` |
| ReaderExamples.DottedList | packages/syntax/lib/parser.ts:80-98 | `(a b . c)` reads as `Cons(a, Cons(b, c))` |
| ReaderExamples.TrailingNewline | packages/syntax/lib/parser.ts:32-40 | `a` and a newline: `parseFile` fails with "expected an expression", and the grammar's loop reads `[a]` |
| ReaderExamples.EmptySource | packages/syntax/lib/parser.ts:32-40 | an empty source is a file of no expressions |

## Left out

- **Numbers.** `Number(text)` is a floating-point conversion, so a Number
  tree keeps its lexeme as a string.
  - `EllipsisCount` reads the text after the first two characters only as a run
    of decimal digits, and reads 0 otherwise, standing in for NaN.
  - The lib lexer only ever makes the Ellipsis text `...` (`FixedSpelling`,
    `TailShapes`), so the count is 0 on every path the code can take.
  - A `-` followed by `.` starts a Number even when no digit follows, although
    the comment at packages/syntax/lib/lexer.ts:62 takes a digit for granted. So `-.)` is
    Number `-.` and then `)` (`DashDotTokens`). `Number("-.")` is NaN; the
    model keeps the lexeme `-.`.
- **Errors.** Exceptions become `ParseError` values: `UnknownToken(text)`,
  `ExpectedExpression` and `ExpectedCloser(c)`. They do not carry message
  strings. No partial tree is returned with an error.
- **Characters.** JavaScript strings are UTF-16 code units; each is one Dafny
  `char`.
  - An index past the end of the source reads "no character".
  - `'tf'.includes(undefined)` is false.
- **Higher-order tests.** `skipWhile` and `readWhile` take a function in the
  source. Here they take a first-order `CharTest` value that names the five
  tests they are called with.
- **Object identity.** The `any`-typed fields of `Expr` and object identity
  are left out. `Expr` is a datatype compared structurally, as the tests'
  `toEqual` comparisons do.
- **`closerFor`'s throw.** It is never reached from `parseExpr`, so it becomes
  the precondition that the opener is `(` or `[`.
- **`parseComp` split.** Its element loop, its tail and closer, and its closer
  check are the separate methods `ParseElements`, `ParseEnd` and `ParseClose`.
  They follow the function's own sections.
- **Test harnesses.** They are not modelled. Their expectations appear as
  example lemmas. The harness's filter that drops whitespace from the lib
  lexer's tests is not applied, so the examples list whitespace tokens.
  - `lib/__tests__/lexer.ts` expects Ellipsis tokens `..1` and `..134`, at
    lines 26 and 31. The code makes Ellipsis1 `..1` instead: Ellipsis1 for
    `..1`, and Ellipsis1 followed by Number `34` for `..134`.
  - The model follows the code (`ScanDot`, `PunctuationTokens`,
    `DotDigitsTokens`).
- **`..1` in a compound.** The grammar comment lists `"..1" ")"` as a way to
  end a compound. The code has no case for Ellipsis1, so the model follows the
  code: `..1` in a list is "expected an expression" (`EllipsisOneFails`).
- **`(a b ...)`.** The code's inner `const final` shadows the outer one. So the
  Ellipsis becomes the last element, and `(a b ...)` reads as
  `Cons(a, Cons(b, Cons(Ellipsis(0), Nil)))`, not as a list ending in the
  Ellipsis. The model follows the code (`EllipsisIsLastElement`).
- **Prototype `Lexer`.** It is not given a token-stream cursor. Its `Peek`
  and `Pop` are stated against `Scan` at the ghost mark.
- **The printer.** It prints trees as tokens, not as text, so the round trip
  is stated on token streams and on the streams of parsed sources.

## Findings

| source | as written | input that shows it | evidently intended | confidence | as-written member | corrected member |
|---|---|---|---|---|---|---|
| packages/syntax/lib/parser.ts:32-40 | `parseFile` peeks for Eof before skipping trivia. After the last expression, any trailing whitespace or comment makes it call `parseExpr` once more; that reaches Eof and fails. | `"a\n"` fails with "expected an expression" | the grammar at parser.ts:3, `File = Trivia* Expr*(Trivia)`, lets trivia end a file, so `"a\n"` reads as `[a]` | medium, not executed | FileGrammar.TrailingLayoutRejected, ReaderExamples.TrailingNewline | Parsing.GrammarFileFrom, Parsing.ParseFileByGrammar, FileGrammar.TrailingLayoutAccepted |
