/**
 * The hand-written scanner of the reader (packages/syntax/lib/lexer.ts).
 *
 * `Scan(source, i)` is the pure meaning of one call of the lexer's `next()`
 * from cursor `i`: the token found there and the cursor after it. The class
 * `Lexer` keeps the source's cursor `pos` and one-token lookahead `buffer`,
 * and its methods are proved against `Scan`.
 */
module Lexing {
  import opened Wrappers

  datatype TokenKind =
    | LParen | RParen | LBracket | RBracket
    | Dot | Ellipsis | Ellipsis1
    | Quote | Backtick | Comma | CommaAt
    | Number | Boolean | Symbol
    | Whitespace | LineComment | Unknown
    | Eof

  /** A token is its kind and the exact slice of source it was read from. */
  datatype Token = Token(kind: TokenKind, text: string)

  /** One scanning step: the token read and the cursor just after it. */
  datatype Step = Step(token: Token, next: nat)

  // ---------------------------------------------------------------------
  // Character classes

  predicate IsDigit(c: char) {
    '0' <= c <= '9'
  }

  /** A letter or one of `! $ % ^ & * - _ = + : < > / ?`. */
  predicate StartsSymbol(c: char) {
    ('a' <= c <= 'z') || ('A' <= c <= 'Z') ||
    c == '!' || c == '$' || c == '%' || c == '^' || c == '&' || c == '*' || c == '-' || c == '_' ||
    c == '=' || c == '+' || c == ':' || c == '<' || c == '>' || c == '/' || c == '?'
  }

  predicate ContinuesSymbol(c: char) {
    StartsSymbol(c) || IsDigit(c)
  }

  /** Space, tab, CR or LF. */
  predicate IsWhitespace(c: char) {
    c == ' ' || c == '\t' || c == '\r' || c == '\n'
  }

  predicate IsLineEnd(c: char) {
    c == '\r' || c == '\n'
  }

  /** Unknown runs stop only at a delimiter, whitespace or the start of a comment. */
  predicate IsUnknown(c: char) {
    !(c == '(' || c == ')' || c == '[' || c == ']' || IsWhitespace(c) || c == ';')
  }

  /** The tests `next()` hands to `skipWhile`. */
  datatype CharTest = Digit | SymbolTail | Space | CommentBody | UnknownBody

  predicate Passes(test: CharTest, c: char) {
    match test
    case Digit => IsDigit(c)
    case SymbolTail => ContinuesSymbol(c)
    case Space => IsWhitespace(c)
    case CommentBody => !IsLineEnd(c)
    case UnknownBody => IsUnknown(c)
  }

  /** `src[k] == c`, where an index past the end holds no character. */
  predicate At(src: string, k: nat, c: char) {
    k < |src| && src[k] == c
  }

  predicate DigitAt(src: string, k: nat) {
    k < |src| && IsDigit(src[k])
  }

  /** `src.slice(k).startsWith(ab)` for the two-character string `ab`. */
  predicate StartsWith2(src: string, k: nat, a: char, b: char) {
    At(src, k, a) && At(src, k + 1, b)
  }

  // ---------------------------------------------------------------------
  // The pure scanner

  /** Where the maximal run of characters passing `test` that starts at `i` ends. */
  function RunEnd(src: string, i: nat, test: CharTest): (j: nat)
    requires i <= |src|
    ensures i <= j <= |src|
    ensures j == |src| || !Passes(test, src[j])
    decreases |src| - i
  {
    if i == |src| || !Passes(test, src[i]) then i else RunEnd(src, i + 1, test)
  }

  /** Every character of the run passes the test. */
  lemma {:induction false} RunEndPasses(src: string, i: nat, test: CharTest)
    requires i <= |src|
    ensures forall k :: i <= k < RunEnd(src, i, test) ==> Passes(test, src[k])
    decreases |src| - i
  {
    if i < |src| && Passes(test, src[i]) {
      RunEndPasses(src, i + 1, test);
    }
  }

  /** The character at `i` starts a Number: a digit, `-` before `.` or a digit, or `.` before a digit. */
  predicate StartsNumber(src: string, i: nat)
    requires i < |src|
  {
    var c := src[i];
    IsDigit(c) || (c == '-' && (At(src, i + 1, '.') || DigitAt(src, i + 1))) || (c == '.' && DigitAt(src, i + 1))
  }

  /** The kind of the token starting at `i < |src|` and the position just after it. */
  function Classify(src: string, i: nat): (r: (TokenKind, nat))
    requires i < |src|
    ensures i < r.1 <= |src| && r.0 != Eof
  {
    var c := src[i];
    var j := i + 1;
    if c == '(' then (LParen, j)
    else if c == ')' then (RParen, j)
    else if c == '[' then (LBracket, j)
    else if c == ']' then (RBracket, j)
    else if c == '\'' then (Quote, j)
    else if c == '`' then (Backtick, j)
    else if c == ',' then
      if At(src, j, '@') then (CommaAt, j + 1) else (Comma, j)
    else if StartsNumber(src, i) then
      var a := RunEnd(src, j, Digit);
      var b := if c != '.' && At(src, a, '.') then a + 1 else a;
      (Number, RunEnd(src, b, Digit))
    else if c == '.' then
      if StartsWith2(src, j, '.', '.') then (Ellipsis, j + 2)
      else if StartsWith2(src, j, '.', '1') then (Ellipsis1, j + 2)
      else (Dot, j)
    else if c == '#' then
      if At(src, j, 't') || At(src, j, 'f') then (Boolean, j + 1)
      else (Unknown, RunEnd(src, j, UnknownBody))
    else if StartsSymbol(c) then (Symbol, RunEnd(src, j, SymbolTail))
    else if IsWhitespace(c) then (Whitespace, RunEnd(src, j, Space))
    else if c == ';' then (LineComment, RunEnd(src, j, CommentBody))
    else (Unknown, RunEnd(src, j, UnknownBody))
  }

  /**
   * One scanning step from cursor `i`: the token there and the cursor after it.
   * Every token is the slice of source it covers; only the end yields Eof, and
   * every other token covers at least one character.
   */
  function Scan(src: string, i: nat): (r: Step)
    requires i <= |src|
    ensures i <= r.next <= |src|
    ensures r.token.text == src[i..r.next]
    ensures (r.token.kind == Eof) == (i == |src|)
    ensures r.token.kind != Eof ==> i < r.next && r.token.text != []
  {
    if i == |src| then Step(Token(Eof, ""), i)
    else
      var c := Classify(src, i);
      Step(Token(c.0, src[i..c.1]), c.1)
  }

  /** The tokens popped from cursor `i` until Eof (Eof itself excluded). */
  function Tokens(src: string, i: nat): (ts: seq<Token>)
    requires i <= |src|
    ensures |ts| <= |src| - i
    ensures forall k :: 0 <= k < |ts| ==> ts[k].kind != Eof
    decreases |src| - i
  {
    if i == |src| then []
    else
      var r := Scan(src, i);
      [r.token] + Tokens(src, r.next)
  }

  /** Away from the end, the token stream is the token scanned here followed by the stream after it. */
  lemma TokensStep(src: string, i: nat)
    requires i < |src|
    ensures Tokens(src, i) == [Scan(src, i).token] + Tokens(src, Scan(src, i).next)
  {
  }

  /** What a peek sees on the stream `ts`: its first token, or Eof once it is used up. */
  function Head(ts: seq<Token>): Token {
    if ts == [] then Token(Eof, "") else ts[0]
  }

  /** The stream left after a pop; popping at Eof leaves it empty. */
  function Drop(ts: seq<Token>): seq<Token> {
    if ts == [] then [] else ts[1..]
  }

  /**
   * Scanning at cursor `i` reads the head of the stream from `i` and leaves the
   * stream after it; the stream ends exactly where the source is used up, and
   * only there does the head read Eof.
   */
  lemma StreamStep(src: string, i: nat)
    requires i <= |src|
    ensures Scan(src, i).token == Head(Tokens(src, i))
    ensures Tokens(src, Scan(src, i).next) == Drop(Tokens(src, i))
    ensures (Tokens(src, i) == []) == (i == |src|) == (Head(Tokens(src, i)).kind == Eof)
  {
    if i < |src| {
      TokensStep(src, i);
    }
  }

  /** The source text a sequence of tokens covers, in order. */
  function Texts(ts: seq<Token>): string {
    if ts == [] then [] else ts[0].text + Texts(ts[1..])
  }

  // ---------------------------------------------------------------------
  // What one scanning step produces

  /** The fixed spelling of a token kind, for the kinds that have one. */
  function Spelling(k: TokenKind): Option<string> {
    match k
    case LParen => Some("(")
    case RParen => Some(")")
    case LBracket => Some("[")
    case RBracket => Some("]")
    case Quote => Some("'")
    case Backtick => Some("`")
    case Comma => Some(",")
    case CommaAt => Some(",@")
    case Dot => Some(".")
    case Ellipsis => Some("...")
    case Ellipsis1 => Some("..1")
    case Eof => Some("")
    case _ => None
  }

  /** At the end of the source every scan yields Eof with empty text and leaves the cursor where it is. */
  lemma ScanAtEnd(src: string)
    ensures Scan(src, |src|) == Step(Token(Eof, ""), |src|)
  {
  }

  /** A token whose kind has a fixed spelling always has exactly that text; in particular every Ellipsis is `...`. */
  lemma FixedSpelling(src: string, i: nat)
    requires i <= |src|
    ensures Spelling(Scan(src, i).token.kind).Some? ==> Scan(src, i).token.text == Spelling(Scan(src, i).token.kind).value
  {
    if i < |src| {
      var t, j := Scan(src, i).token, Scan(src, i).next;
      if t.kind == CommaAt {
        assert src[i..j] == [src[i], src[i + 1]];
      } else if t.kind == Ellipsis || t.kind == Ellipsis1 {
        assert src[i..j] == [src[i], src[i + 1], src[i + 2]];
      }
    }
  }

  /** Each of `( ) [ ] ' `` is a one-character token of its own kind. */
  lemma ScanDelimiter(src: string, i: nat)
    requires i < |src|
    requires src[i] == '(' || src[i] == ')' || src[i] == '[' || src[i] == ']' || src[i] == '\'' || src[i] == '`'
    ensures Scan(src, i).next == i + 1 && Scan(src, i).token.text == [src[i]]
    ensures Spelling(Scan(src, i).token.kind) == Some([src[i]])
  {
  }

  /** `,@` is one CommaAt token; any other `,` is a Comma. */
  lemma ScanComma(src: string, i: nat)
    requires i < |src| && src[i] == ','
    ensures Scan(src, i) == if At(src, i + 1, '@') then Step(Token(CommaAt, ",@"), i + 2) else Step(Token(Comma, ","), i + 1)
  {
    FixedSpelling(src, i);
  }

  /** Digits and dots, with at most one dot. */
  predicate DigitsWithOneDot(body: string) {
    (forall k :: 0 <= k < |body| ==> IsDigit(body[k]) || body[k] == '.') &&
    (forall k, m :: 0 <= k < m < |body| && body[k] == '.' ==> body[m] != '.')
  }

  /** Optional `-`, then digits, at most one `.`, then digits (and not the bare `-`). */
  predicate NumberLexeme(s: string) {
    var body := if |s| > 0 && s[0] == '-' then s[1..] else s;
    |body| > 0 && DigitsWithOneDot(body)
  }

  lemma OneDot(body: string, d: int)
    requires forall k :: 0 <= k < |body| ==> IsDigit(body[k]) || (k == d && body[k] == '.')
    ensures DigitsWithOneDot(body)
  {
  }

  /** The digit/dot structure of the characters a Number token covers. */
  lemma NumberRange(src: string, i: nat)
    requires i < |src| && StartsNumber(src, i)
    ensures var j := Scan(src, i).next;
      var off := if src[i] == '-' then i + 1 else i;
      var d := if src[i] == '.' then i else RunEnd(src, i + 1, Digit);
      off < j &&
      (forall k :: off <= k < j ==> IsDigit(src[k]) || (k == d && src[k] == '.')) &&
      (j == |src| || (!IsDigit(src[j]) && (src[j] == '.' ==> off <= d < j)))
  {
    var c := src[i];
    var a := RunEnd(src, i + 1, Digit);
    var b := if c != '.' && At(src, a, '.') then a + 1 else a;
    var j := RunEnd(src, b, Digit);
    RunEndPasses(src, i + 1, Digit);
    RunEndPasses(src, b, Digit);
    assert Scan(src, i).next == j;
    if c == '.' {
      assert b == a && j == a;
    }
  }

  /**
   * A Number token starts exactly where a number may start, has the lexeme
   * shape, and cannot be extended: the next character is no digit, and is a
   * `.` only if the token already holds one (so `123.45.6` gives `123.45`, `.6`).
   */
  lemma NumberToken(src: string, i: nat)
    requires i < |src|
    ensures (Scan(src, i).token.kind == Number) == StartsNumber(src, i)
    ensures Scan(src, i).token.kind == Number ==>
      var t, j := Scan(src, i).token, Scan(src, i).next;
      NumberLexeme(t.text) && (j == |src| || (!IsDigit(src[j]) && (src[j] == '.' ==> '.' in t.text)))
  {
    var t, j := Scan(src, i).token, Scan(src, i).next;
    if t.kind == Number {
      NumberRange(src, i);
      var off := if src[i] == '-' then i + 1 else i;
      var d := if src[i] == '.' then i else RunEnd(src, i + 1, Digit);
      var body := src[off..j];
      assert body == if |t.text| > 0 && t.text[0] == '-' then t.text[1..] else t.text;
      forall k | 0 <= k < |body|
        ensures IsDigit(body[k]) || (k == d - off && body[k] == '.')
      {
        assert body[k] == src[off + k];
      }
      OneDot(body, d - off);
      if j < |src| && src[j] == '.' {
        assert t.text[d - i] == '.';
      }
    }
  }

  /** A `.` not starting a number is `...` (Ellipsis), `..1` (Ellipsis1) or a lone Dot. */
  lemma ScanDot(src: string, i: nat)
    requires i < |src| && src[i] == '.' && !DigitAt(src, i + 1)
    ensures Scan(src, i) ==
      if At(src, i + 1, '.') && At(src, i + 2, '.') then Step(Token(Ellipsis, "..."), i + 3)
      else if At(src, i + 1, '.') && At(src, i + 2, '1') then Step(Token(Ellipsis1, "..1"), i + 3)
      else Step(Token(Dot, "."), i + 1)
  {
    FixedSpelling(src, i);
  }

  /** `#t` and `#f` are Booleans; any other `#` starts a maximal Unknown run. */
  lemma ScanHash(src: string, i: nat)
    requires i < |src| && src[i] == '#'
    ensures
      if At(src, i + 1, 't') || At(src, i + 1, 'f') then Scan(src, i) == Step(Token(Boolean, src[i..i + 2]), i + 2)
      else Scan(src, i).token.kind == Unknown && Scan(src, i).next == RunEnd(src, i + 1, UnknownBody)
  {
  }

  /** Every Boolean token reads `#t` or `#f`. */
  lemma BooleanText(src: string, i: nat)
    requires i <= |src| && Scan(src, i).token.kind == Boolean
    ensures Scan(src, i).token.text in {"#t", "#f"}
  {
    var t, j := Scan(src, i).token, Scan(src, i).next;
    assert t.text == [src[i], src[i + 1]];
  }

  /** What every token of a stream satisfies: it is no Eof, covers some text, and is spelled as its kind demands. */
  predicate WellSpelled(t: Token) {
    t.kind != Eof && t.text != [] &&
    (Spelling(t.kind).Some? ==> t.text == Spelling(t.kind).value) &&
    (t.kind == Boolean ==> t.text == "#t" || t.text == "#f")
  }

  predicate AllWellSpelled(ts: seq<Token>) {
    forall k :: 0 <= k < |ts| ==> WellSpelled(ts[k])
  }

  /** Every token popped before Eof is well spelled. */
  lemma {:induction false} TokensWellSpelled(src: string, i: nat)
    requires i <= |src|
    ensures AllWellSpelled(Tokens(src, i))
    decreases |src| - i
  {
    if i < |src| {
      var r := Scan(src, i);
      TokensStep(src, i);
      FixedSpelling(src, i);
      if r.token.kind == Boolean {
        BooleanText(src, i);
      }
      assert WellSpelled(r.token);
      TokensWellSpelled(src, r.next);
      var ts := Tokens(src, i);
      assert forall k :: 1 <= k < |ts| ==> ts[k] == Tokens(src, r.next)[k - 1];
    }
  }

  /** A Symbol is one symbol-starting character (not a number's `-`) followed by the maximal run of symbol characters. */
  lemma SymbolToken(src: string, i: nat)
    requires i < |src|
    ensures (Scan(src, i).token.kind == Symbol) == (StartsSymbol(src[i]) && !StartsNumber(src, i))
    ensures Scan(src, i).token.kind == Symbol ==>
      var t, j := Scan(src, i).token, Scan(src, i).next;
      StartsSymbol(t.text[0]) && (forall k :: 0 < k < |t.text| ==> ContinuesSymbol(t.text[k])) &&
      (j == |src| || !ContinuesSymbol(src[j]))
  {
    if Scan(src, i).token.kind == Symbol {
      RunEndPasses(src, i + 1, SymbolTail);
    }
  }

  /** Whitespace tokens are maximal runs of space, tab, CR and LF. */
  lemma WhitespaceToken(src: string, i: nat)
    requires i < |src|
    ensures (Scan(src, i).token.kind == Whitespace) == IsWhitespace(src[i])
    ensures Scan(src, i).token.kind == Whitespace ==>
      var t, j := Scan(src, i).token, Scan(src, i).next;
      (forall k :: 0 <= k < |t.text| ==> IsWhitespace(t.text[k])) && (j == |src| || !IsWhitespace(src[j]))
  {
    if Scan(src, i).token.kind == Whitespace {
      RunEndPasses(src, i + 1, Space);
    }
  }

  /** A LineComment runs from `;` up to, not including, the next CR or LF. */
  lemma LineCommentToken(src: string, i: nat)
    requires i < |src|
    ensures (Scan(src, i).token.kind == LineComment) == (src[i] == ';')
    ensures Scan(src, i).token.kind == LineComment ==>
      var t, j := Scan(src, i).token, Scan(src, i).next;
      t.text[0] == ';' && (forall k :: 0 <= k < |t.text| ==> !IsLineEnd(t.text[k])) &&
      (j == |src| || IsLineEnd(src[j]))
  {
    if src[i] == ';' {
      RunEndPasses(src, i + 1, CommentBody);
    }
  }

  /** The characters that start no other kind of token. */
  predicate StartsNothing(src: string, i: nat)
    requires i < |src|
  {
    var c := src[i];
    !(c == '(' || c == ')' || c == '[' || c == ']' || c == '\'' || c == '`' || c == ',' || c == '.' || c == '#' || c == ';') &&
    !StartsNumber(src, i) && !StartsSymbol(src[i]) && !IsWhitespace(src[i])
  }

  /**
   * Unknown tokens come from a `#` not followed by `t`/`f`, or from a character
   * that starts nothing else; they then run on until a delimiter, whitespace or `;`.
   */
  lemma UnknownRun(src: string, i: nat)
    requires i < |src|
    ensures (Scan(src, i).token.kind == Unknown) ==
      ((src[i] == '#' && !(At(src, i + 1, 't') || At(src, i + 1, 'f'))) || StartsNothing(src, i))
    ensures Scan(src, i).token.kind == Unknown ==>
      var t, j := Scan(src, i).token, Scan(src, i).next;
      (forall k :: 0 < k < |t.text| ==> IsUnknown(t.text[k])) && (j == |src| || !IsUnknown(src[j]))
  {
    if Scan(src, i).token.kind == Unknown {
      RunEndPasses(src, i + 1, UnknownBody);
    }
  }

  /** The tokens popped before Eof tile the source: their texts, concatenated, give it back. */
  lemma {:induction false} TokensTile(src: string, i: nat)
    requires i <= |src|
    ensures Texts(Tokens(src, i)) == src[i..]
    decreases |src| - i
  {
    if i < |src| {
      var r := Scan(src, i);
      TokensStep(src, i);
      TokensTile(src, r.next);
      TextsCons(r.token, Tokens(src, r.next));
      assert src[i..] == src[i..r.next] + src[r.next..];
    }
  }

  lemma TextsCons(t: Token, ts: seq<Token>)
    ensures Texts([t] + ts) == t.text + Texts(ts)
  {
    assert ([t] + ts)[1..] == ts;
  }

  // ---------------------------------------------------------------------
  // The stateful lexer

  class Lexer {
    const source: string
    var pos: nat
    var buffer: Option<Token>
    /** Where the token that the next `Pop` returns begins: `pos`, or the start of the buffered token. */
    ghost var mark: nat

    ghost predicate Valid()
      reads this
    {
      pos <= |source| && mark <= pos &&
      match buffer
      case None => mark == pos
      case Some(t) => Scan(source, mark) == Step(t, pos)
    }

    /** The tokens still to be popped, the buffered one first. */
    ghost function Stream(): seq<Token>
      reads this
      requires Valid()
    {
      Tokens(source, mark)
    }

    constructor (source: string)
      ensures Valid() && this.source == source
      ensures pos == 0 && mark == 0 && buffer == None
      ensures Stream() == Tokens(source, 0)
    {
      this.source := source;
      pos := 0;
      buffer := None;
      mark := 0;
    }

    /** Returns the buffered token and empties the buffer, or scans a fresh token. */
    method Pop() returns (t: Token)
      requires Valid()
      modifies this
      ensures Valid() && buffer == None && mark == pos
      ensures Scan(source, old(mark)) == Step(t, mark)
      ensures old(buffer).Some? ==> t == old(buffer).value && pos == old(pos)
      ensures old(buffer).None? ==> Scan(source, old(pos)) == Step(t, pos)
      ensures t == Head(old(Stream())) && Stream() == Drop(old(Stream()))
    {
      if buffer.Some? {
        t := buffer.value;
        buffer := None;
      } else {
        t := Next();
      }
      StreamStep(source, mark);
      mark := pos;
    }

    /** Returns the next token without consuming it; scans only when the buffer is empty. */
    method Peek() returns (t: Token)
      requires Valid()
      modifies this
      ensures Valid() && mark == old(mark) && buffer == Some(t)
      ensures t == Scan(source, mark).token
      ensures old(buffer).Some? ==> t == old(buffer).value && pos == old(pos)
      ensures t == Head(Stream()) && Stream() == old(Stream())
    {
      if buffer.None? {
        var s := Next();
        buffer := Some(s);
      }
      t := buffer.value;
      StreamStep(source, mark);
    }

    /** Scans one token from `pos`, advancing `pos` past it. */
    method Next() returns (t: Token)
      requires pos <= |source|
      modifies this`pos
      ensures Scan(source, old(pos)) == Step(t, pos)
    {
      if pos >= |source| {
        return Token(Eof, "");
      }
      var start := pos;
      var c := source[pos];
      pos := pos + 1;
      var kind: TokenKind;
      if c == '(' {
        kind := LParen;
      } else if c == ')' {
        kind := RParen;
      } else if c == '[' {
        kind := LBracket;
      } else if c == ']' {
        kind := RBracket;
      } else if c == '\'' {
        kind := Quote;
      } else if c == '`' {
        kind := Backtick;
      } else if c == ',' {
        if At(source, pos, '@') {
          pos := pos + 1;
          kind := CommaAt;
        } else {
          kind := Comma;
        }
      } else if IsDigit(c) || (c == '-' && (At(source, pos, '.') || DigitAt(source, pos))) || (c == '.' && DigitAt(source, pos)) {
        var seenDecimalPt := c == '.';
        SkipWhile(Digit);
        if !seenDecimalPt && At(source, pos, '.') {
          pos := pos + 1;
        }
        SkipWhile(Digit);
        kind := Number;
      } else if c == '.' {
        if StartsWith2(source, pos, '.', '.') {
          pos := pos + 2;
          kind := Ellipsis;
        } else if StartsWith2(source, pos, '.', '1') {
          pos := pos + 2;
          kind := Ellipsis1;
        } else {
          kind := Dot;
        }
      } else if c == '#' {
        if At(source, pos, 't') || At(source, pos, 'f') {
          pos := pos + 1;
          kind := Boolean;
        } else {
          SkipWhile(UnknownBody);
          kind := Unknown;
        }
      } else if StartsSymbol(c) {
        SkipWhile(SymbolTail);
        kind := Symbol;
      } else if IsWhitespace(c) {
        SkipWhile(Space);
        kind := Whitespace;
      } else if c == ';' {
        SkipWhile(CommentBody);
        kind := LineComment;
      } else {
        SkipWhile(UnknownBody);
        kind := Unknown;
      }
      t := Token(kind, source[start..pos]);
    }

    /** Advances `pos` over the maximal run of characters passing `test`. */
    method SkipWhile(test: CharTest)
      requires pos <= |source|
      modifies this`pos
      ensures pos == RunEnd(source, old(pos), test)
    {
      while pos < |source|
        invariant old(pos) <= pos <= |source|
        invariant RunEnd(source, pos, test) == RunEnd(source, old(pos), test)
        decreases |source| - pos
      {
        if !Passes(test, source[pos]) {
          break;
        }
        pos := pos + 1;
      }
    }
  }

  /** Popping the head of a non-empty stream moves it onto the tokens already popped. */
  lemma PopStream(ts: seq<Token>, s: seq<Token>)
    requires s != []
    ensures (ts + [Head(s)]) + Drop(s) == ts + s
  {
    assert s == [s[0]] + s[1..];
  }

  /**
   * Pops tokens until Eof is peeked, as the reader's tests drive the lexer:
   * the result is the whole stream that was still to come, which tiles the rest
   * of the source, and the lexer is left at the end.
   */
  method PopAll(lx: Lexer) returns (ts: seq<Token>)
    requires lx.Valid()
    modifies lx
    ensures lx.Valid() && lx.mark == |lx.source| && lx.Stream() == []
    ensures ts == old(lx.Stream()) == Tokens(lx.source, old(lx.mark))
    ensures Texts(ts) == lx.source[old(lx.mark)..]
  {
    ghost var all := lx.Stream();
    ts := [];
    var p := lx.Peek();
    ghost var rest := lx.Stream();
    while p.kind != Eof
      invariant lx.Valid() && rest == lx.Stream()
      invariant p == Head(rest) && ts + rest == all
      decreases |rest|
    {
      StreamStep(lx.source, lx.mark);
      PopStream(ts, rest);
      var t := lx.Pop();
      ts := ts + [t];
      rest := lx.Stream();
      p := lx.Peek();
    }
    StreamStep(lx.source, lx.mark);
    TokensTile(lx.source, old(lx.mark));
  }

}
