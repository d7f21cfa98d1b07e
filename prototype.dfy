/**
 * The earlier, stand-alone scanner of packages/syntax/lexer.ts, which records
 * the source span of every token. The reader does not use it.
 *
 * `Scan(source, i)` is the token one call of `next()` reads from cursor `i`;
 * its span ends where the cursor is left. The class `Lexer` keeps the cursor
 * `pos` and the one-token lookahead `buffer`, and its per-kind `read*`
 * helpers are proved against `Scan`.
 */
module PrototypeLexing {
  import opened Wrappers

  datatype TokenKind =
    | LParen | RParen | LBracket | RBracket | Dot
    | Quote | Backtick | Comma | CommaAt
    | Name | Num | Boolean | Comment | Whitespace
    | Eof | Unknown

  /** The half-open range `[start, end)` of source a token was read from. */
  datatype Span = Span(start: nat, end: nat)

  datatype Token = Token(kind: TokenKind, span: Span, text: string)

  // ---------------------------------------------------------------------
  // Character classes

  predicate IsDigit(c: char) {
    '0' <= c <= '9'
  }

  /** A letter or one of `! $ % ^ & * - _ = + : < > / ?`. */
  predicate StartsName(c: char) {
    ('a' <= c <= 'z') || ('A' <= c <= 'Z') ||
    c == '!' || c == '$' || c == '%' || c == '^' || c == '&' || c == '*' || c == '-' || c == '_' ||
    c == '=' || c == '+' || c == ':' || c == '<' || c == '>' || c == '/' || c == '?'
  }

  predicate ContinuesName(c: char) {
    StartsName(c) || IsDigit(c)
  }

  /** Space, tab, LF or CR. */
  predicate IsWhitespace(c: char) {
    c == ' ' || c == '\t' || c == '\n' || c == '\r'
  }

  predicate IsLineEnd(c: char) {
    c == '\n' || c == '\r'
  }

  /** The characters read as a one-character token of their own: `( ) [ ] . ' ``. */
  predicate IsSingle(c: char) {
    c == '(' || c == ')' || c == '[' || c == ']' || c == '.' || c == '\'' || c == '`'
  }

  /** Neither a digit, a name character, whitespace, nor one of `[ ] ( ) . ' , ; #`. */
  predicate IsUnknown(c: char) {
    !IsDigit(c) && !StartsName(c) && !IsWhitespace(c) &&
    !(c == '[' || c == ']' || c == '(' || c == ')' || c == '.' || c == '\'' || c == ',' || c == ';' || c == '#')
  }

  /** The tests the `read*` helpers hand to `readWhile`. */
  datatype CharTest = NameTail | Digit | CommentBody | Space | UnknownBody

  predicate Passes(test: CharTest, c: char) {
    match test
    case NameTail => ContinuesName(c)
    case Digit => IsDigit(c)
    case CommentBody => !IsLineEnd(c)
    case Space => IsWhitespace(c)
    case UnknownBody => IsUnknown(c)
  }

  // ---------------------------------------------------------------------
  // The pure scanner

  /** Where the maximal run of characters passing `test` that starts at `i` ends. */
  function RunEnd(src: string, i: nat, test: CharTest): (j: nat)
    requires i <= |src|
    ensures i <= j <= |src|
    ensures j == |src| || !Passes(test, src[j])
    decreases |src| - i
  {
    if i == |src| || !Passes(test, src[i]) then i else RunEnd(src, i + 1, test)
  }

  /** Every character of the run passes the test. */
  lemma {:induction false} RunEndPasses(src: string, i: nat, test: CharTest)
    requires i <= |src|
    ensures forall k :: i <= k < RunEnd(src, i, test) ==> Passes(test, src[k])
    decreases |src| - i
  {
    if i < |src| && Passes(test, src[i]) {
      RunEndPasses(src, i + 1, test);
    }
  }

  /** The `readSingle` table. */
  function SingleKind(c: char): (k: TokenKind)
    requires IsSingle(c)
  {
    if c == '(' then LParen
    else if c == ')' then RParen
    else if c == '[' then LBracket
    else if c == ']' then RBracket
    else if c == '.' then Dot
    else if c == '\'' then Quote
    else Backtick
  }

  /** The kind of a token and where it ends. */
  datatype Lexeme = Lexeme(kind: TokenKind, end: nat)

  /** The token starting at `i < |src|`: dispatch on its first character. */
  function Classify(src: string, i: nat): (r: Lexeme)
    requires i < |src|
    ensures i < r.end <= |src| && r.kind != Eof
  {
    var c := src[i];
    var j := i + 1;
    if IsSingle(c) then Lexeme(SingleKind(c), j)
    else if c == ',' then
      if j < |src| && src[j] == '@' then Lexeme(CommaAt, j + 1) else Lexeme(Comma, j)
    else if StartsName(c) then Lexeme(Name, RunEnd(src, j, NameTail))
    else if IsDigit(c) then Lexeme(Num, RunEnd(src, j, Digit))
    else if c == '#' then
      if j < |src| && (src[j] == 't' || src[j] == 'f') then Lexeme(Boolean, j + 1)
      else Lexeme(Unknown, RunEnd(src, j, UnknownBody))
    else if c == ';' then Lexeme(Comment, RunEnd(src, j, CommentBody))
    else if IsWhitespace(c) then Lexeme(Whitespace, RunEnd(src, j, Space))
    else Lexeme(Unknown, RunEnd(src, j, UnknownBody))
  }

  /**
   * The token one `next()` reads from cursor `i`. Its span starts at `i`, its
   * text is the spanned source, only the end of the source yields Eof (with an
   * empty span at the cursor), and every other token spans at least one character.
   */
  function Scan(src: string, i: nat): (t: Token)
    requires i <= |src|
    ensures t.span.start == i && i <= t.span.end <= |src|
    ensures t.text == src[i..t.span.end]
    ensures (t.kind == Eof) == (i == |src|)
    ensures t.kind != Eof ==> i < t.span.end
  {
    if i == |src| then Token(Eof, Span(i, i), "")
    else
      var l := Classify(src, i);
      Token(l.kind, Span(i, l.end), src[i..l.end])
  }

  /** The tokens popped from cursor `i` until Eof (Eof itself excluded). */
  function Tokens(src: string, i: nat): (ts: seq<Token>)
    requires i <= |src|
    ensures |ts| <= |src| - i
    ensures forall k :: 0 <= k < |ts| ==> ts[k].kind != Eof
    decreases |src| - i
  {
    if i == |src| then []
    else
      var t := Scan(src, i);
      [t] + Tokens(src, t.span.end)
  }

  /** The spans of `ts` follow each other without gap or overlap, from `from` up to `to`. */
  predicate Contiguous(ts: seq<Token>, from: nat, to: nat) {
    if ts == [] then from == to
    else ts[0].span.start == from && ts[0].span.start < ts[0].span.end && Contiguous(ts[1..], ts[0].span.end, to)
  }

  // ---------------------------------------------------------------------
  // What one scanning step produces

  /** Away from the end, the token stream is the token scanned here followed by the stream after it. */
  lemma TokensStep(src: string, i: nat)
    requires i < |src|
    ensures Tokens(src, i) == [Scan(src, i)] + Tokens(src, Scan(src, i).span.end)
  {
  }

  /** The spans of the tokens popped from `i` tile `[i, |src|)`, and each token's text is its span's source. */
  lemma {:induction false} TokensContiguous(src: string, i: nat)
    requires i <= |src|
    ensures Contiguous(Tokens(src, i), i, |src|)
    ensures forall t :: t in Tokens(src, i) ==> t.span.start <= t.span.end <= |src| && t.text == src[t.span.start..t.span.end]
    decreases |src| - i
  {
    if i < |src| {
      var t := Scan(src, i);
      var rest := Tokens(src, t.span.end);
      TokensStep(src, i);
      assert ([t] + rest)[1..] == rest;
      TokensContiguous(src, t.span.end);
    }
  }

  /** At the end of the source the scan is Eof with an empty span at the cursor and empty text. */
  lemma ScanAtEnd(src: string)
    ensures Scan(src, |src|) == Token(Eof, Span(|src|, |src|), "")
  {
  }

  /** Each of `( ) [ ] . ' `` is a one-character token of its own kind; `.` is always a Dot. */
  lemma SingleToken(src: string, i: nat)
    requires i < |src| && IsSingle(src[i])
    ensures Scan(src, i) == Token(SingleKind(src[i]), Span(i, i + 1), [src[i]])
    ensures src[i] == '.' ==> Scan(src, i).kind == Dot
  {
  }

  /** `,@` is one CommaAt token; any other `,` is a Comma. */
  lemma CommaToken(src: string, i: nat)
    requires i < |src| && src[i] == ','
    ensures Scan(src, i) ==
      if i + 1 < |src| && src[i + 1] == '@' then Token(CommaAt, Span(i, i + 2), ",@")
      else Token(Comma, Span(i, i + 1), ",")
  {
    if i + 1 < |src| && src[i + 1] == '@' {
      assert src[i..i + 2] == [src[i], src[i + 1]];
    }
  }

  /** Names come first: a name character (`-` included) starts a Name, the maximal run of name characters and digits. */
  lemma NameToken(src: string, i: nat)
    requires i < |src|
    ensures (Scan(src, i).kind == Name) == StartsName(src[i])
    ensures Scan(src, i).kind == Name ==>
      var t := Scan(src, i);
      (forall k :: 0 < k < |t.text| ==> ContinuesName(t.text[k])) &&
      (t.span.end == |src| || !ContinuesName(src[t.span.end]))
  {
    if StartsName(src[i]) {
      RunEndPasses(src, i + 1, NameTail);
    }
  }

  /** A Num is a maximal run of digits: no sign and no fraction. */
  lemma NumToken(src: string, i: nat)
    requires i < |src|
    ensures (Scan(src, i).kind == Num) == IsDigit(src[i])
    ensures Scan(src, i).kind == Num ==>
      var t := Scan(src, i);
      (forall k :: 0 <= k < |t.text| ==> IsDigit(t.text[k])) &&
      (t.span.end == |src| || !IsDigit(src[t.span.end]))
  {
    if Scan(src, i).kind == Num {
      RunEndPasses(src, i + 1, Digit);
    }
  }

  /** `#t` and `#f` are two-character Booleans; any other `#` starts an Unknown run. */
  lemma HashToken(src: string, i: nat)
    requires i < |src| && src[i] == '#'
    ensures
      if i + 1 < |src| && (src[i + 1] == 't' || src[i + 1] == 'f') then
        Scan(src, i) == Token(Boolean, Span(i, i + 2), src[i..i + 2])
      else
        Scan(src, i).kind == Unknown && Scan(src, i).span.end == RunEnd(src, i + 1, UnknownBody)
  {
  }

  /** A Comment runs from `;` up to, not including, the next LF or CR. */
  lemma CommentToken(src: string, i: nat)
    requires i < |src|
    ensures (Scan(src, i).kind == Comment) == (src[i] == ';')
    ensures Scan(src, i).kind == Comment ==>
      var t := Scan(src, i);
      (forall k :: 0 < k < |t.text| ==> !IsLineEnd(t.text[k])) &&
      (t.span.end == |src| || IsLineEnd(src[t.span.end]))
  {
    if src[i] == ';' {
      RunEndPasses(src, i + 1, CommentBody);
    }
  }

  /** Whitespace is a maximal run of space, tab, LF and CR. */
  lemma WhitespaceToken(src: string, i: nat)
    requires i < |src|
    ensures (Scan(src, i).kind == Whitespace) == IsWhitespace(src[i])
    ensures Scan(src, i).kind == Whitespace ==>
      var t := Scan(src, i);
      (forall k :: 0 <= k < |t.text| ==> IsWhitespace(t.text[k])) &&
      (t.span.end == |src| || !IsWhitespace(src[t.span.end]))
  {
    if Scan(src, i).kind == Whitespace {
      RunEndPasses(src, i + 1, Space);
    }
  }

  /**
   * Unknown tokens come from a `#` not followed by `t`/`f`, or from a character
   * no other rule takes; their first character is followed only by characters
   * that are no digit, name character, whitespace or one of `[ ] ( ) . ' , ; #`.
   */
  lemma UnknownToken(src: string, i: nat)
    requires i < |src|
    ensures (Scan(src, i).kind == Unknown) ==
      ((src[i] == '#' && !(i + 1 < |src| && (src[i + 1] == 't' || src[i + 1] == 'f'))) ||
       (!IsSingle(src[i]) && src[i] != ',' && src[i] != '#' && src[i] != ';' && IsUnknown(src[i])))
    ensures Scan(src, i).kind == Unknown ==>
      var t := Scan(src, i);
      (forall k :: 0 < k < |t.text| ==> IsUnknown(t.text[k])) &&
      (t.span.end == |src| || !IsUnknown(src[t.span.end]))
  {
    if Scan(src, i).kind == Unknown {
      RunEndPasses(src, i + 1, UnknownBody);
    }
  }

  /** `#x` is an Unknown `#` followed by the Name `x`. */
  lemma HashX()
    ensures Tokens("#x", 0) == [Token(Unknown, Span(0, 1), "#"), Token(Name, Span(1, 2), "x")]
  {
    var s := "#x";
    assert RunEnd(s, 1, UnknownBody) == 1;
    assert Scan(s, 0) == Token(Unknown, Span(0, 1), "#");
    assert RunEnd(s, 2, NameTail) == 2;
    assert Scan(s, 1) == Token(Name, Span(1, 2), "x");
    TokensStep(s, 0);
    TokensStep(s, 1);
  }

  // ---------------------------------------------------------------------
  // The stateful lexer

  class Lexer {
    const source: string
    var pos: nat
    var buffer: Option<Token>
    /** Where the token that the next `Pop` returns begins: `pos`, or the start of the buffered token. */
    ghost var mark: nat

    ghost predicate Valid()
      reads this
    {
      pos <= |source| && mark <= pos &&
      match buffer
      case None => mark == pos
      case Some(t) => t == Scan(source, mark) && t.span.end == pos
    }

    constructor (source: string)
      ensures Valid() && this.source == source
      ensures pos == 0 && mark == 0 && buffer == None
    {
      this.source := source;
      pos := 0;
      buffer := None;
      mark := 0;
    }

    /** Returns the next token without consuming it; scans only when the buffer is empty. */
    method Peek() returns (t: Token)
      requires Valid()
      modifies this
      ensures Valid() && mark == old(mark) && buffer == Some(t)
      ensures t == Scan(source, mark)
      ensures old(buffer).Some? ==> t == old(buffer).value && pos == old(pos)
    {
      if buffer.None? {
        var s := Next();
        buffer := Some(s);
      }
      t := buffer.value;
    }

    /** Returns the buffered token and empties the buffer, or scans a fresh token. */
    method Pop() returns (t: Token)
      requires Valid()
      modifies this
      ensures Valid() && buffer == None && mark == pos
      ensures t == Scan(source, old(mark)) && t.span.end == mark
      ensures old(buffer).Some? ==> t == old(buffer).value && pos == old(pos)
      ensures old(buffer).None? ==> t == Scan(source, old(pos))
    {
      if buffer.None? {
        t := Next();
      } else {
        t := buffer.value;
        buffer := None;
      }
      mark := pos;
    }

    /** Scans one token from `pos`, advancing `pos` to the end of its span. */
    method Next() returns (t: Token)
      requires pos <= |source|
      modifies this`pos
      ensures t == Scan(source, old(pos)) && pos == t.span.end
    {
      var start := pos;
      if pos >= |source| {
        return Token(Eof, Span(start, start), "");
      }
      var c := source[pos];
      pos := pos + 1;
      var kind: TokenKind;
      if IsSingle(c) {
        kind := SingleKind(c);
      } else if c == ',' {
        kind := ReadComma();
      } else if StartsName(c) {
        kind := ReadName();
      } else if IsDigit(c) {
        kind := ReadNum();
      } else if c == '#' {
        kind := ReadBoolean();
      } else if c == ';' {
        kind := ReadComment();
      } else if IsWhitespace(c) {
        kind := ReadWhitespace();
      } else {
        kind := ReadUnknown();
      }
      t := Token(kind, Span(start, pos), source[start..pos]);
    }

    method ReadComma() returns (kind: TokenKind)
      requires pos <= |source|
      modifies this`pos
      ensures if old(pos) < |source| && source[old(pos)] == '@' then kind == CommaAt && pos == old(pos) + 1
        else kind == Comma && pos == old(pos)
    {
      if pos < |source| && source[pos] == '@' {
        pos := pos + 1;
        kind := CommaAt;
      } else {
        kind := Comma;
      }
    }

    method ReadName() returns (kind: TokenKind)
      requires pos <= |source|
      modifies this`pos
      ensures kind == Name && pos == RunEnd(source, old(pos), NameTail)
    {
      ReadWhile(NameTail);
      kind := Name;
    }

    method ReadNum() returns (kind: TokenKind)
      requires pos <= |source|
      modifies this`pos
      ensures kind == Num && pos == RunEnd(source, old(pos), Digit)
    {
      ReadWhile(Digit);
      kind := Num;
    }

    /** `t` or `f` after the `#` completes a Boolean; anything else makes the `#` start an Unknown run. */
    method ReadBoolean() returns (kind: TokenKind)
      requires pos <= |source|
      modifies this`pos
      ensures if old(pos) < |source| && (source[old(pos)] == 't' || source[old(pos)] == 'f') then
          kind == Boolean && pos == old(pos) + 1
        else kind == Unknown && pos == RunEnd(source, old(pos), UnknownBody)
    {
      if pos < |source| && (source[pos] == 't' || source[pos] == 'f') {
        pos := pos + 1;
        kind := Boolean;
      } else {
        kind := ReadUnknown();
      }
    }

    method ReadComment() returns (kind: TokenKind)
      requires pos <= |source|
      modifies this`pos
      ensures kind == Comment && pos == RunEnd(source, old(pos), CommentBody)
    {
      ReadWhile(CommentBody);
      kind := Comment;
    }

    method ReadWhitespace() returns (kind: TokenKind)
      requires pos <= |source|
      modifies this`pos
      ensures kind == Whitespace && pos == RunEnd(source, old(pos), Space)
    {
      ReadWhile(Space);
      kind := Whitespace;
    }

    method ReadUnknown() returns (kind: TokenKind)
      requires pos <= |source|
      modifies this`pos
      ensures kind == Unknown && pos == RunEnd(source, old(pos), UnknownBody)
    {
      ReadWhile(UnknownBody);
      kind := Unknown;
    }

    /** Advances `pos` while there is a character and it passes `test`. */
    method ReadWhile(test: CharTest)
      requires pos <= |source|
      modifies this`pos
      ensures pos == RunEnd(source, old(pos), test)
    {
      while true
        invariant old(pos) <= pos <= |source|
        invariant RunEnd(source, pos, test) == RunEnd(source, old(pos), test)
        decreases |source| - pos
      {
        if pos >= |source| || !Passes(test, source[pos]) {
          break;
        }
        pos := pos + 1;
      }
    }
  }

  /** Popping the token at `i` moves it from the stream still to come onto the tokens already popped. */
  lemma PopStep(src: string, m0: nat, ts: seq<Token>, i: nat)
    requires m0 <= i < |src| && ts + Tokens(src, i) == Tokens(src, m0)
    ensures (ts + [Scan(src, i)]) + Tokens(src, Scan(src, i).span.end) == Tokens(src, m0)
  {
    TokensStep(src, i);
    assert (ts + [Scan(src, i)]) + Tokens(src, Scan(src, i).span.end) == ts + ([Scan(src, i)] + Tokens(src, Scan(src, i).span.end));
  }

  /**
   * Pops tokens until Eof is peeked, as the scanner's tests drive it: the
   * result is the token stream from the cursor, whose spans tile the rest
   * of the source.
   */
  method PopAll(lx: Lexer) returns (ts: seq<Token>)
    requires lx.Valid()
    modifies lx
    ensures lx.Valid() && lx.mark == |lx.source|
    ensures ts == Tokens(lx.source, old(lx.mark))
    ensures Contiguous(ts, old(lx.mark), |lx.source|)
  {
    ghost var src, m0 := lx.source, lx.mark;
    ts := [];
    var p := lx.Peek();
    while p.kind != Eof
      invariant lx.Valid() && lx.source == src && m0 <= lx.mark
      invariant p == Scan(src, lx.mark)
      invariant ts + Tokens(src, lx.mark) == Tokens(src, m0)
      decreases |src| - lx.mark
    {
      ghost var before := lx.mark;
      var t := lx.Pop();
      PopStep(src, m0, ts, before);
      ts := ts + [t];
      p := lx.Peek();
    }
    TokensContiguous(src, m0);
  }
}
