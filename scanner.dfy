/** The lexer of `Scanner.cs`: a cursor over an immutable input. `Lex` is the specification of
    one `Pop`: where the next token starts, what it is, and where the cursor ends up; the class
    `Scanner` is the imperative scanner, proved to follow `Lex`. */
module Scanning {
  import opened Wrappers
  import opened Chars
  import opened Ast
  import opened Tokens
  import opened Diagnostics

  /** `input.Replace("\r", "")`. */
  function RemoveCarriageReturns(query: string): (s: string)
    ensures '\r' !in s
    ensures '\r' !in query ==> s == query
    ensures forall c :: c != '\r' ==> multiset(s)[c] == multiset(query)[c]
    ensures |query| == 1 ==> s == (if query[0] == '\r' then "" else query)
  {
    if query == [] then []
    else
      assert query == [query[0]] + query[1..];
      (if query[0] == '\r' then [] else [query[0]]) + RemoveCarriageReturns(query[1..])
  }

  /** Removing `\r` commutes with concatenation; with the one-character case above this fixes
      the result: the characters other than `\r`, in their order. */
  lemma {:induction false} RemoveCarriageReturnsConcat(a: string, b: string)
    ensures RemoveCarriageReturns(a + b) == RemoveCarriageReturns(a) + RemoveCarriageReturns(b)
    decreases |a|
  {
    if a == [] {
      assert a + b == b;
    } else {
      var head := if a[0] == '\r' then "" else [a[0]];
      calc {
        RemoveCarriageReturns(a + b);
        { assert (a + b)[0] == a[0] && (a + b)[1..] == a[1..] + b; RemoveCarriageReturnsFirst(a + b); }
        head + RemoveCarriageReturns(a[1..] + b);
        { RemoveCarriageReturnsConcat(a[1..], b); }
        head + (RemoveCarriageReturns(a[1..]) + RemoveCarriageReturns(b));
        { RemoveCarriageReturnsFirst(a); }
        RemoveCarriageReturns(a) + RemoveCarriageReturns(b);
      }
    }
  }

  /** One step of the removal: the first character is dropped exactly when it is `\r`. */
  lemma RemoveCarriageReturnsFirst(t: string)
    requires t != []
    ensures RemoveCarriageReturns(t) == (if t[0] == '\r' then "" else [t[0]]) + RemoveCarriageReturns(t[1..])
  {
  }

  /** The scanner's indexer: reads past the end of the input yield `'\0'`. */
  function At(s: string, i: nat): (c: char)
    ensures c == '\0' <==> i >= |s| || s[i] == '\0'
  {
    if i < |s| then s[i] else '\0'
  }

  predicate IsWordStart(c: char) {
    IsLetter(c) || c == '_' || c == '@'
  }

  /** The character classes the scanner's inner loops run over. */
  datatype CharClass = WordChar | Digit | Dollar | StringChar

  predicate InClass(c: char, cc: CharClass) {
    match cc
    case WordChar => IsLetter(c) || IsNumber(c) || c == '_'
    case Digit => IsNumber(c)
    case Dollar => c == '$'
    case StringChar => c != '"' && c != '\0'
  }

  /** The first offset from `p` on that is not white space. */
  function SkipWhitespace(s: string, p: nat): (q: nat)
    requires p <= |s|
    ensures p <= q <= |s| && !IsWhiteSpace(At(s, q))
    decreases |s| - p
  {
    if IsWhiteSpace(At(s, p)) then SkipWhitespace(s, p + 1) else p
  }

  /** Everything `SkipWhitespace` skips is white space. */
  lemma {:induction false} SkippedWhitespace(s: string, p: nat)
    requires p <= |s|
    ensures forall k :: p <= k < SkipWhitespace(s, p) ==> IsWhiteSpace(s[k])
    decreases |s| - p
  {
    if IsWhiteSpace(At(s, p)) { SkippedWhitespace(s, p + 1); }
  }

  /** The end of the longest run of characters of class `cc` starting at `p`. */
  function SpanEnd(s: string, p: nat, cc: CharClass): (q: nat)
    requires p <= |s|
    ensures p <= q <= |s| && !InClass(At(s, q), cc)
    decreases |s| - p
  {
    if InClass(At(s, p), cc) then SpanEnd(s, p + 1, cc) else p
  }

  /** The run `SpanEnd` measures consists of characters of class `cc` only. */
  lemma {:induction false} SpanIsClass(s: string, p: nat, cc: CharClass)
    requires p <= |s|
    ensures forall k :: p <= k < SpanEnd(s, p, cc) ==> InClass(s[k], cc)
    decreases |s| - p
  {
    if InClass(At(s, p), cc) { SpanIsClass(s, p + 1, cc); }
  }

  predicate AllAsciiDigits(s: string) {
    forall k :: 0 <= k < |s| ==> IsAsciiDigit(s[k])
  }

  /** The value of a run of decimal digits. */
  function DigitsValue(s: string): (v: nat)
    requires AllAsciiDigits(s)
    ensures s != [] && s[0] != '0' ==> v >= Power10(|s| - 1)
    ensures v < Power10(|s|)
  {
    if s == [] then 0
    else
      assert |s| > 1 ==> s[..|s| - 1][0] == s[0];
      DigitsValue(s[..|s| - 1]) * 10 + DigitValue(s[|s| - 1])
  }

  function Power10(n: nat): (r: nat)
    ensures r >= 1
  {
    if n == 0 then 1 else 10 * Power10(n - 1)
  }

  /** `int.Parse` on a run of `char.IsNumber` characters. */
  function ParseInt(lexeme: string): (r: Result<int32, Error>)
    ensures r.Success? <==> AllAsciiDigits(lexeme) && DigitsValue(lexeme) <= Int32MaxValue
    ensures r.Success? ==> r.value as int == DigitsValue(lexeme)
    ensures r.Failure? ==> r.error == (if AllAsciiDigits(lexeme) then Overflow(lexeme) else Format(lexeme))
  {
    if !AllAsciiDigits(lexeme) then Failure(Format(lexeme))
    else if DigitsValue(lexeme) > Int32MaxValue then Failure(Overflow(lexeme))
    else Success(DigitsValue(lexeme) as int32)
  }

  /** `double.Parse` with the invariant culture on digits and one `.`: only decimal digits
      other than ASCII ones make it fail. The numeric value is not modelled. */
  function ParseDouble(lexeme: string): (r: Result<string, Error>)
    ensures r.Success? <==> forall k :: 0 <= k < |lexeme| ==> IsAsciiDigit(lexeme[k]) || lexeme[k] == '.'
    ensures r.Success? ==> r.value == lexeme
  {
    if forall k :: 0 <= k < |lexeme| ==> IsAsciiDigit(lexeme[k]) || lexeme[k] == '.' then Success(lexeme)
    else Failure(Format(lexeme))
  }

  /** The lexeme of binary operator `i` matches the input at `b`. */
  predicate OperatorAt(s: string, b: nat, i: nat)
    requires i < |BinaryOperators|
  {
    forall k :: 0 <= k < |BinaryOperators[i].operator| ==> BinaryOperators[i].operator[k] == At(s, b + k)
  }

  lemma OperatorWithinInput(s: string, b: nat, i: nat)
    requires i < |BinaryOperators| && OperatorAt(s, b, i)
    ensures b + |BinaryOperators[i].operator| <= |s|
    ensures s[b..b + |BinaryOperators[i].operator|] == BinaryOperators[i].operator
  {
    var op := BinaryOperators[i].operator;
    BinaryPrecedencesPositive(BinaryOperators[i]);
    assert At(s, b + |op| - 1) == op[|op| - 1];
  }

  /** The index of the first binary operator, from `i` on, whose lexeme matches at `b`. */
  function MatchOperator(s: string, b: nat, i: nat): (r: Option<nat>)
    requires i <= |BinaryOperators|
    ensures r.Some? ==> i <= r.value < |BinaryOperators| && OperatorAt(s, b, r.value)
    ensures r.Some? ==> forall j :: i <= j < r.value ==> !OperatorAt(s, b, j)
    ensures r.None? ==> forall j :: i <= j < |BinaryOperators| ==> !OperatorAt(s, b, j)
    decreases |BinaryOperators| - i
  {
    if i == |BinaryOperators| then None
    else if OperatorAt(s, b, i) then Some(i)
    else MatchOperator(s, b, i + 1)
  }

  /** A token and the cursor position after it. */
  datatype Lexed = Lexed(token: Token, end: nat)

  function MakeToken(start: nat, kind: TokenKind, text: string, literal: Option<LiteralValue>, end: nat): Lexed {
    Lexed(Token(start, kind, text, literal), end)
  }

  /** The error `ThrowError(start, end, message)` raises. */
  function ErrorAt(s: string, start: nat, end: nat, message: Message): (e: Error)
    requires start <= end <= |s|
    ensures e.QueryCompilation? && e.position == start && e.message == message
    ensures |s| > 0 ==> e.excerpt.width == end - start
  {
    QueryCompilation(start, message, ExcerptOf(s, start, end))
  }

  /** What every successful lex from `b` satisfies: the token starts at `b`, its text is the
      input it covers, only the end-of-input token is empty, and only literals carry a value. */
  predicate Shaped(s: string, b: nat, r: Result<Lexed, Error>) {
    r.Success? ==>
      var t := r.value.token;
      && t.start == b && b <= r.value.end <= |s|
      && t.text == s[b..r.value.end]
      && (t.kind == EndOfFile <==> r.value.end == b)
      && (t.kind == EndOfFile ==> At(s, b) == '\0')
      && (t.kind == Literal <==> t.literal.Some?)
      && (t.literal.Some? ==> t.literal.value.HasOneVariant())
  }

  /** A floating-point literal spanning `[b, f)`. */
  function DoubleLiteral(s: string, b: nat, f: nat): (r: Result<Lexed, Error>)
    requires b < f <= |s|
    ensures Shaped(s, b, r)
  {
    var lexeme := s[b..f];
    var d :- ParseDouble(lexeme);
    Success(MakeToken(b, Literal, lexeme, Some(LiteralOf(DoubleConstant(d))), f))
  }

  /** An integer literal spanning `[b, e)`. */
  function IntLiteral(s: string, b: nat, e: nat): (r: Result<Lexed, Error>)
    requires b < e <= |s|
    ensures Shaped(s, b, r)
  {
    var lexeme := s[b..e];
    var v :- ParseInt(lexeme);
    Success(MakeToken(b, Literal, lexeme, Some(LiteralOf(IntConstant(v))), e))
  }

  /** An identifier, a nested-query keyword or a Boolean literal. */
  function LexWord(s: string, b: nat): (r: Result<Lexed, Error>)
    requires b < |s|
    ensures Shaped(s, b, r)
  {
    var e := SpanEnd(s, b + 1, WordChar);
    var word := s[b..e];
    if IsNestedQueryOperator(word) then Success(MakeToken(b, NestedQueryOperator, word, None, e))
    else if word == "true" then Success(MakeToken(b, Literal, word, Some(LiteralOf(BoolConstant(true))), e))
    else if word == "false" then Success(MakeToken(b, Literal, word, Some(LiteralOf(BoolConstant(false))), e))
    else Success(MakeToken(b, Identifier, word, None, e))
  }

  /** A number starting with a digit: an integer, a double, or one of the unimplemented
      time-span and date forms. */
  function LexNumber(s: string, b: nat): (r: Result<Lexed, Error>)
    requires b < |s|
    ensures Shaped(s, b, r)
  {
    var e := SpanEnd(s, b + 1, Digit);
    var d := At(s, e);
    if d == '.' then DoubleLiteral(s, b, SpanEnd(s, e + 1, Digit))
    else if d == ':' || d == '/' then Failure(NotImplemented)
    else IntLiteral(s, b, e)
  }

  /** A `.`: the member-access dot, or a double with no integer part. */
  function LexDot(s: string, b: nat): (r: Result<Lexed, Error>)
    requires b < |s| && s[b] == '.'
    ensures Shaped(s, b, r)
  {
    if !IsNumber(At(s, b + 1)) then Success(MakeToken(b, Dot, ".", None, b + 1))
    else DoubleLiteral(s, b, SpanEnd(s, b + 1, Digit))
  }

  /** A string literal: everything up to the next `"`, without escapes. */
  function LexString(s: string, b: nat): (r: Result<Lexed, Error>)
    requires b < |s|
    ensures Shaped(s, b, r)
  {
    var e := SpanEnd(s, b + 1, StringChar);
    if At(s, e) == '\0' then Failure(ErrorAt(s, b, e - 1, UnterminatedString))
    else Success(MakeToken(b, Literal, s[b..e + 1], Some(LiteralOf(StringConstant(s[b + 1..e]))), e + 1))
  }

  /** A binary operator, else a single-character token or the end of input. */
  function LexSymbol(s: string, b: nat): (r: Result<Lexed, Error>)
    requires b <= |s|
    ensures Shaped(s, b, r)
  {
    match MatchOperator(s, b, 0)
    case Some(i) =>
      var e := b + |BinaryOperators[i].operator|;
      OperatorWithinInput(s, b, i);
      BinaryPrecedencesPositive(BinaryOperators[i]);
      Success(MakeToken(b, BinaryOperators[i].tokenKind, s[b..e], None, e))
    case None => Punctuation(s, b)
  }

  /** The single-character tokens and the end of input. */
  function Punctuation(s: string, b: nat): (r: Result<Lexed, Error>)
    requires b <= |s|
    ensures Shaped(s, b, r)
  {
    var c := At(s, b);
    if c == '(' then Success(MakeToken(b, ParenthesisOpen, "(", None, b + 1))
    else if c == ')' then Success(MakeToken(b, ParenthesisClose, ")", None, b + 1))
    else if c == '{' then Success(MakeToken(b, BlockOpen, "{", None, b + 1))
    else if c == '}' then Success(MakeToken(b, BlockClose, "}", None, b + 1))
    else if c == '*' then Success(MakeToken(b, Multiply, "*", None, b + 1))
    else if c == '/' then Success(MakeToken(b, Divide, "/", None, b + 1))
    else if c == '+' then Success(MakeToken(b, Plus, "+", None, b + 1))
    else if c == '-' then Success(MakeToken(b, Minus, "-", None, b + 1))
    else if c == '!' then Success(MakeToken(b, TokenKind.Not, "!", None, b + 1))
    else if c == '~' then Success(MakeToken(b, BitNot, "~", None, b + 1))
    else if c == '\0' then Success(MakeToken(b, EndOfFile, "", None, b))
    else Failure(ErrorAt(s, b, b, UnexpectedCharacter(c)))
  }

  /** The token a `Pop` at cursor `p` returns, and the cursor after it. */
  function Lex(s: string, p: nat): (r: Result<Lexed, Error>)
    requires p <= |s|
    ensures Shaped(s, SkipWhitespace(s, p), r)
  {
    LexAt(s, SkipWhitespace(s, p))
  }

  /** The token starting at `b`, chosen by its first character. */
  function LexAt(s: string, b: nat): (r: Result<Lexed, Error>)
    requires b <= |s|
    ensures Shaped(s, b, r)
  {
    var c := At(s, b);
    if IsWordStart(c) then LexWord(s, b)
    else if c == '$' then LexIteratorVariable(s, b)
    else if IsNumber(c) then LexNumber(s, b)
    else if c == '.' then LexDot(s, b)
    else if c == '"' then LexString(s, b)
    else LexSymbol(s, b)
  }

  /** An iterator variable: a run of `$`. */
  function LexIteratorVariable(s: string, b: nat): (r: Result<Lexed, Error>)
    requires b < |s|
    ensures Shaped(s, b, r)
  {
    var e := SpanEnd(s, b + 1, Dollar);
    Success(MakeToken(b, IteratorVariable, s[b..e], None, e))
  }

  function TokenOf(l: Result<Lexed, Error>): Result<Token, Error> {
    match l
    case Success(x) => Success(x.token)
    case Failure(e) => Failure(e)
  }

  /** A scanner whose cursor is at `pos`, whose last token started at `tokenStart` and whose
      end-of-input flag is `eofReached` has just returned `r`, as the lexer's result `l` says. */
  predicate Follows(l: Result<Lexed, Error>, r: Result<Token, Error>, pos: nat, tokenStart: nat, eofReached: bool) {
    && r == TokenOf(l)
    && (r.Success? ==> pos == l.value.end && tokenStart == r.value.start)
    && (r.Success? ==> eofReached == (r.value.kind == EndOfFile))
  }

  // ------------------------------------------------------------------------------------
  // The token stream: what the successive `Pop`s of a scanner return.

  /** The results of popping again and again from cursor `p`: every token up to and including
      the end of input, or up to the first error. */
  function Stream(s: string, p: nat): (ts: seq<Result<Token, Error>>)
    requires p <= |s|
    ensures |ts| > 0
    decreases |s| - p
  {
    match Lex(s, p)
    case Failure(e) => [Failure(e)]
    case Success(l) =>
      if l.token.kind == EndOfFile then [Success(l.token)]
      else [Success(l.token)] + Stream(s, l.end)
  }

  /** Where the cursor rests once the first `k` results of `ts` are popped, starting from `p`:
      right after the text of the last token popped. */
  function Boundary(p: nat, ts: seq<Result<Token, Error>>, k: nat): nat
    requires k <= |ts|
  {
    if k == 0 then p
    else match ts[k - 1]
      case Success(t) => t.start + |t.text|
      case Failure(_) => p
  }

  /** Result `k` of `ts` is what `Pop` returns at the cursor the earlier results leave. */
  predicate ItemAt(s: string, p: nat, ts: seq<Result<Token, Error>>, k: nat)
    requires k < |ts|
  {
    Boundary(p, ts, k) <= |s| && TokenOf(Lex(s, Boundary(p, ts, k))) == ts[k]
  }

  /** What every stream looks like: tokens other than the end of input, then the end of input or
      an error; every token's text lies within the input. */
  predicate StreamShape(s: string, ts: seq<Result<Token, Error>>) {
    && |ts| > 0
    && (forall k :: 0 <= k < |ts| - 1 ==> ts[k].Success? && ts[k].value.kind != EndOfFile)
    && (ts[|ts| - 1].Success? ==> ts[|ts| - 1].value.kind == EndOfFile)
    && (forall k :: 0 <= k < |ts| && ts[k].Success? ==> ts[k].value.start + |ts[k].value.text| <= |s|)
  }

  /** `ts` is the stream read from `p` on. */
  predicate IsStream(s: string, p: nat, ts: seq<Result<Token, Error>>) {
    StreamShape(s, ts) && forall k {:trigger ItemAt(s, p, ts, k)} :: 0 <= k < |ts| ==> ItemAt(s, p, ts, k)
  }

  /** A token popped at `p`, followed by the stream read from where that token ends, is the
      stream read from `p`. */
  lemma ConsStream(s: string, p: nat, ts: seq<Result<Token, Error>>)
    requires |ts| >= 2 && ts[0].Success? && StreamShape(s, ts) && ItemAt(s, p, ts, 0)
    requires IsStream(s, Boundary(p, ts, 1), ts[1..])
    ensures IsStream(s, p, ts)
  {
    var e := Boundary(p, ts, 1);
    forall k | 1 <= k < |ts|
      ensures ItemAt(s, p, ts, k)
    {
      assert Boundary(p, ts, k) == Boundary(e, ts[1..], k - 1);
      assert ItemAt(s, e, ts[1..], k - 1);
    }
  }

  /** `Stream` is a stream: each result is the `Pop` at the cursor the results before it leave. */
  lemma {:induction false} StreamIsStream(s: string, p: nat)
    requires p <= |s|
    ensures IsStream(s, p, Stream(s, p))
    decreases |s| - p
  {
    var ts := Stream(s, p);
    assert ItemAt(s, p, ts, 0);
    var l := Lex(s, p);
    if l.Success? && l.value.token.kind != EndOfFile {
      var rest := Stream(s, l.value.end);
      StreamIsStream(s, l.value.end);
      assert ts == [Success(l.value.token)] + rest;
      assert ts[1..] == rest;
      assert Boundary(p, ts, 1) == l.value.end;
      ConsStream(s, p, ts);
    }
  }

  /** `TryPop(kind)` on a stream at result `i`: the token when it has that kind. */
  function TryPopped(ts: seq<Result<Token, Error>>, i: nat, kind: TokenKind): (r: Result<Option<Token>, Error>)
    requires i < |ts|
    ensures r.Failure? <==> ts[i].Failure?
    ensures r.Failure? ==> r.error == ts[i].error
    ensures r.Success? && r.value.Some? <==> ts[i].Success? && ts[i].value.kind == kind
    ensures r.Success? && r.value.Some? ==> ts[i] == Success(r.value.value)
  {
    match ts[i]
    case Failure(e) => Failure(e)
    case Success(t) => if t.kind == kind then Success(Some(t)) else Success(None)
  }

  /** `Require(kind)` on a stream at result `i`: the token, or the error naming the kind expected. */
  function Required(s: string, ts: seq<Result<Token, Error>>, i: nat, kind: TokenKind): (r: Result<Token, Error>)
    requires StreamShape(s, ts) && i < |ts|
    ensures r.Success? ==> ts[i] == r && r.value.kind == kind
  {
    match ts[i]
    case Failure(e) => Failure(e)
    case Success(t) =>
      if t.kind != kind then Failure(ErrorAt(s, t.start, t.start + |t.text|, Expected(kind)))
      else Success(t)
  }

  class Scanner {
    const input: string
    /** The results this scanner's `Pop`s return, in order, and how many have been popped. */
    ghost const tokens: seq<Result<Token, Error>>
    ghost var index: nat
    var pos: nat
    var tokenStart: nat
    var eofReached: bool

    /** The cursor and the last token start lie within the input, which holds no `\r`. */
    ghost predicate InBounds()
      reads this
    {
      pos <= |input| && tokenStart <= |input| && '\r' !in input
    }

    /** In addition, `tokens` is the input's stream, the cursor rests after its first `index`
        results, and the end of input has been reached once all of them are popped. */
    ghost predicate Valid()
      reads this
    {
      && InBounds()
      && IsStream(input, 0, tokens)
      && index <= |tokens| && pos == Boundary(0, tokens, index)
      && (eofReached <==> index == |tokens|)
    }

    constructor (query: string)
      ensures Valid()
      ensures input == RemoveCarriageReturns(query) && tokens == Stream(input, 0)
      ensures index == 0 && pos == 0 && tokenStart == 0 && !eofReached
    {
      var s := RemoveCarriageReturns(query);
      StreamIsStream(s, 0);
      input, tokens, index := s, Stream(s, 0), 0;
      pos, tokenStart, eofReached := 0, 0, false;
    }

    /** The copy `Peek` pops from. */
    constructor Copy(other: Scanner)
      requires other.Valid()
      ensures Valid()
      ensures input == other.input && tokens == other.tokens && index == other.index
      ensures pos == other.pos && tokenStart == other.tokenStart && eofReached == other.eofReached
    {
      input, tokens, index := other.input, other.tokens, other.index;
      pos, tokenStart, eofReached := other.pos, other.tokenStart, other.eofReached;
    }

    /** The next result of the stream is the `Pop` at the cursor. */
    lemma NextIsLex()
      requires Valid() && !eofReached
      ensures tokens[index] == TokenOf(Lex(input, pos))
    {
      assert ItemAt(input, 0, tokens, index);
    }

    /** The character at the cursor, `'\0'` once past the end. */
    function Current(): (c: char)
      reads this
      ensures c == '\0' <==> pos >= |input| || input[pos] == '\0'
    {
      At(input, pos)
    }

    /** The text of the token being scanned, from its start to the cursor. */
    function Cut(): (t: string)
      reads this
      requires tokenStart <= pos <= |input|
      ensures |t| == pos - tokenStart && forall k :: 0 <= k < |t| ==> t[k] == input[tokenStart + k]
    {
      input[tokenStart..pos]
    }

    /** Builds the error for the span `[start, end)`, with the excerpt of its line. */
    method ThrowError(start: nat, end: nat, message: Message) returns (e: Error)
      requires start <= end <= |input|
      ensures e == ErrorAt(input, start, end, message)
    {
      var excerpt: Excerpt;
      if |input| == 0 {
        excerpt := Excerpt(false, EmptyInputLine, false, 0, 0);
      } else {
        var lineStart: nat := start;
        while lineStart > 0 && input[lineStart - 1] != '\n'
          invariant lineStart <= start
          invariant LineStart(input, lineStart) == LineStart(input, start)
        {
          lineStart := lineStart - 1;
        }
        var lineEnd: nat := end;
        while lineEnd < |input| && input[lineEnd] != '\n'
          invariant end <= lineEnd <= |input|
          invariant LineEnd(input, lineEnd) == LineEnd(input, end)
          decreases |input| - lineEnd
        {
          lineEnd := lineEnd + 1;
        }
        assert lineStart == LineStart(input, start) && lineEnd == LineEnd(input, end);
        excerpt := CutLine(input, lineStart, lineEnd, start, end);
      }
      e := QueryCompilation(start, message, excerpt);
    }

    /** The cutting step of `ThrowError`, on the line `[lineStart, lineEnd)` around the span. */
    static method CutLine(input: string, lineStart: nat, lineEnd: nat, start: nat, end: nat) returns (excerpt: Excerpt)
      requires start <= end <= |input| && |input| > 0
      requires lineStart == LineStart(input, start) && lineEnd == LineEnd(input, end)
      ensures excerpt == ExcerptOf(input, start, end)
    {
      // the shown part of the line is input[lo..hi]; `column` is the span's column
      var lo, hi, column: nat := lineStart, lineEnd, start - lineStart;
      var cutLeft, cutRight := false, false;
      if column > ContextWidth {
        cutLeft := true;
        lo := start - ContextWidth;
        column := |Ellipsis| + ContextWidth;
      }
      var prefix := if cutLeft then |Ellipsis| else 0;
      var relativeEnd := column + (end - start);
      if prefix + (hi - lo) - relativeEnd > ContextWidth {
        cutRight := true;
        hi := lo + relativeEnd + ContextWidth - prefix;
      }
      excerpt := Excerpt(cutLeft, input[lo..hi], cutRight, column, end - start);
    }

    /** `ThrowError(token, message)`: the span is the token's text. */
    method ThrowErrorAt(token: Token, message: Message) returns (e: Error)
      requires token.start + |token.text| <= |input|
      ensures e == ErrorAt(input, token.start, token.start + |token.text|, message)
    {
      e := ThrowError(token.start, token.start + |token.text|, message);
      assert e == ErrorAt(input, token.start, token.start + |token.text|, message);
    }

    /** `Pop` on the cursor alone: skip white space, then dispatch on the first character. */
    method Scan() returns (r: Result<Token, Error>)
      requires InBounds() && !eofReached
      modifies this`pos, this`tokenStart, this`eofReached
      ensures InBounds() && Follows(Lex(input, old(pos)), r, pos, tokenStart, eofReached)
    {
      ghost var p0 := pos;
      while IsWhiteSpace(Current())
        invariant InBounds() && p0 <= pos && !eofReached
        invariant SkipWhitespace(input, pos) == SkipWhitespace(input, p0)
        decreases |input| - pos
      {
        pos := pos + 1;
      }
      r := PopToken();
    }

    /** The dispatch of `Pop` on the first character of the token. */
    method PopToken() returns (r: Result<Token, Error>)
      requires InBounds() && !eofReached
      modifies this`pos, this`tokenStart, this`eofReached
      ensures InBounds() && Follows(LexAt(input, old(pos)), r, pos, tokenStart, eofReached)
    {
      tokenStart := pos;
      var c := Current();
      if IsLetter(c) || c == '_' || c == '@' {
        r := PopWord();
      } else if c == '$' {
        r := PopIteratorVariable();
      } else if IsNumber(c) {
        r := PopNumber();
      } else if c == '.' {
        r := PopDot();
      } else if c == '"' {
        r := PopString();
      } else {
        r := PopSymbol();
      }
    }

    /** From here on, the methods continue `Scan` once the token start is found. */
    ghost predicate AtTokenStart()
      reads this
    {
      InBounds() && !eofReached && tokenStart == pos
    }

    method PopWord() returns (r: Result<Token, Error>)
      requires AtTokenStart() && IsWordStart(Current())
      modifies this`pos, this`tokenStart, this`eofReached
      ensures InBounds() && Follows(LexWord(input, old(pos)), r, pos, tokenStart, eofReached)
    {
      ghost var b := pos;
      pos := pos + 1;
      SkipWhile(WordChar);
      var word := Cut();
      if IsNestedQueryOperator(word) {
        return Success(Token(tokenStart, NestedQueryOperator, word, None));
      }
      if word == "true" {
        return Success(Token(tokenStart, Literal, word, Some(LiteralOf(BoolConstant(true)))));
      } else if word == "false" {
        return Success(Token(tokenStart, Literal, word, Some(LiteralOf(BoolConstant(false)))));
      }
      return Success(Token(tokenStart, Identifier, word, None));
    }

    method PopIteratorVariable() returns (r: Result<Token, Error>)
      requires AtTokenStart() && Current() == '$'
      modifies this`pos, this`tokenStart, this`eofReached
      ensures InBounds() && Follows(LexIteratorVariable(input, old(pos)), r, pos, tokenStart, eofReached)
    {
      pos := pos + 1;
      SkipWhile(Dollar);
      return Success(Token(tokenStart, IteratorVariable, Cut(), None));
    }

    /** Consumes the characters of class `cc` after the cursor; the cursor then rests on the
        first character outside it. */
    method SkipWhile(cc: CharClass)
      requires InBounds() && tokenStart <= pos
      modifies this`pos
      ensures InBounds() && pos == SpanEnd(input, old(pos), cc)
    {
      ghost var p0 := pos;
      while InClass(Current(), cc)
        invariant p0 <= pos <= |input|
        invariant SpanEnd(input, pos, cc) == SpanEnd(input, p0, cc)
        decreases |input| - pos
      {
        pos := pos + 1;
      }
    }

    method PopNumber() returns (r: Result<Token, Error>)
      requires AtTokenStart() && IsNumber(Current())
      modifies this`pos, this`tokenStart, this`eofReached
      ensures InBounds() && Follows(LexNumber(input, old(pos)), r, pos, tokenStart, eofReached)
    {
      ghost var b := pos;
      pos := pos + 1;
      SkipWhile(Digit);
      ghost var e := pos;
      if Current() == '.' {
        pos := pos + 1;
        SkipWhile(Digit);
        r := CutDouble();
        assert LexNumber(input, b) == DoubleLiteral(input, b, pos);
        return;
      } else if Current() == ':' || Current() == '/' {
        assert LexNumber(input, b) == Failure(NotImplemented);
        return Failure(NotImplemented);
      }
      r := CutInt();
      assert LexNumber(input, b) == IntLiteral(input, b, e);
    }

    /** The integer literal from the token start to the cursor. */
    method CutInt() returns (r: Result<Token, Error>)
      requires InBounds() && tokenStart < pos
      ensures r == TokenOf(IntLiteral(input, tokenStart, pos))
    {
      var intString := Cut();
      var intValue :- ParseInt(intString);
      return Success(Token(tokenStart, Literal, intString, Some(LiteralOf(IntConstant(intValue)))));
    }

    method PopDot() returns (r: Result<Token, Error>)
      requires AtTokenStart() && Current() == '.'
      modifies this`pos, this`tokenStart, this`eofReached
      ensures InBounds() && Follows(LexDot(input, old(pos)), r, pos, tokenStart, eofReached)
    {
      pos := pos + 1;
      if !IsNumber(Current()) {
        return Success(Token(tokenStart, Dot, ".", None));
      }
      SkipWhile(Digit);
      r := CutDouble();
    }

    /** The floating-point literal from the token start to the cursor. */
    method CutDouble() returns (r: Result<Token, Error>)
      requires InBounds() && tokenStart < pos
      ensures r == TokenOf(DoubleLiteral(input, tokenStart, pos))
    {
      var doubleString := Cut();
      var doubleValue :- ParseDouble(doubleString);
      return Success(Token(tokenStart, Literal, doubleString, Some(LiteralOf(DoubleConstant(doubleValue)))));
    }

    method PopString() returns (r: Result<Token, Error>)
      requires AtTokenStart() && Current() == '"'
      modifies this`pos, this`tokenStart, this`eofReached
      ensures InBounds() && Follows(LexString(input, old(pos)), r, pos, tokenStart, eofReached)
    {
      ghost var b := pos;
      pos := pos + 1;
      SkipWhile(StringChar);
      ghost var e := pos;
      assert e == SpanEnd(input, b + 1, StringChar);
      if Current() == '\0' {
        var error := ThrowError(tokenStart, pos - 1, UnterminatedString);
        return Failure(error);
      }
      pos := pos + 1;
      var stringWithQuotes := Cut();
      assert stringWithQuotes == input[b..e + 1];
      SliceOfSlice(input, b, pos, b + 1, pos - 1);
      var value := stringWithQuotes[1..|stringWithQuotes| - 1];
      assert value == input[b + 1..e];
      r := Success(Token(tokenStart, Literal, stringWithQuotes, Some(LiteralOf(StringConstant(value)))));
    }

    /** The operator table is tried in order; each entry compares all of its characters. */
    method PopSymbol() returns (r: Result<Token, Error>)
      requires AtTokenStart()
      modifies this`pos, this`tokenStart, this`eofReached
      ensures InBounds() && Follows(LexSymbol(input, old(pos)), r, pos, tokenStart, eofReached)
    {
      ghost var b := pos;
      var index := 0;
      while index < |BinaryOperators|
        invariant index <= |BinaryOperators| && pos == b && tokenStart == b && !eofReached
        invariant MatchOperator(input, b, index) == MatchOperator(input, b, 0)
      {
        var operator := BinaryOperators[index].operator;
        var isMatch := MatchesAt(operator);
        if isMatch {
          OperatorWithinInput(input, b, index);
          pos := pos + |operator|;
          return Success(Token(tokenStart, BinaryOperators[index].tokenKind, Cut(), None));
        }
        index := index + 1;
      }
      r := PopPunctuation();
    }

    /** Compares every character of `operator` with the input from the cursor on. */
    method MatchesAt(operator: string) returns (isMatch: bool)
      requires InBounds()
      ensures isMatch <==> forall k :: 0 <= k < |operator| ==> operator[k] == At(input, pos + k)
    {
      isMatch := true;
      for i := 0 to |operator|
        invariant isMatch <==> forall k :: 0 <= k < i ==> operator[k] == At(input, pos + k)
      {
        if operator[i] != At(input, pos + i) {
          isMatch := false;
        }
      }
    }

    method PopPunctuation() returns (r: Result<Token, Error>)
      requires AtTokenStart()
      modifies this`pos, this`tokenStart, this`eofReached
      ensures InBounds() && Follows(Punctuation(input, old(pos)), r, pos, tokenStart, eofReached)
    {
      var c := Current();
      if c == '(' { pos := pos + 1; return Success(Token(tokenStart, ParenthesisOpen, "(", None)); }
      if c == ')' { pos := pos + 1; return Success(Token(tokenStart, ParenthesisClose, ")", None)); }
      if c == '{' { pos := pos + 1; return Success(Token(tokenStart, BlockOpen, "{", None)); }
      if c == '}' { pos := pos + 1; return Success(Token(tokenStart, BlockClose, "}", None)); }
      if c == '*' { pos := pos + 1; return Success(Token(tokenStart, Multiply, "*", None)); }
      if c == '/' { pos := pos + 1; return Success(Token(tokenStart, Divide, "/", None)); }
      if c == '+' { pos := pos + 1; return Success(Token(tokenStart, Plus, "+", None)); }
      if c == '-' { pos := pos + 1; return Success(Token(tokenStart, Minus, "-", None)); }
      if c == '!' { pos := pos + 1; return Success(Token(tokenStart, TokenKind.Not, "!", None)); }
      if c == '~' { pos := pos + 1; return Success(Token(tokenStart, BitNot, "~", None)); }
      if c == '\0' {
        eofReached := true;
        return Success(Token(tokenStart, EndOfFile, "", None));
      }
      var e := ThrowError(tokenStart, pos, UnexpectedCharacter(c));
      return Failure(e);
    }

    /** The next result of the stream; on success the cursor moves past the token. */
    method Pop() returns (r: Result<Token, Error>)
      requires Valid() && !eofReached
      modifies this
      ensures r == tokens[old(index)]
      ensures r.Success? ==> Valid() && index == old(index) + 1 && tokenStart == r.value.start
    {
      ghost var l := Lex(input, pos);
      NextIsLex();
      r := Scan();
      index := index + 1;
      if r.Success? {
        assert l.value.token.start + |l.value.token.text| == l.value.end == pos;
      }
    }

    /** Lookahead: pops from a copy, so this scanner is left as it was. */
    method Peek() returns (r: Result<Token, Error>)
      requires Valid() && !eofReached
      ensures r == tokens[index]
    {
      var copy := new Scanner.Copy(this);
      r := copy.Pop();
    }

    /** Pops the next token only when it has the given kind. */
    method TryPop(kind: TokenKind) returns (r: Result<Option<Token>, Error>)
      requires Valid() && !eofReached
      modifies this
      ensures r == TryPopped(tokens, old(index), kind)
      ensures r.Success? && r.value.None? ==> unchanged(this)
      ensures r.Success? && r.value.Some? ==> Valid() && index == old(index) + 1
    {
      var peeked :- Peek();
      if peeked.kind != kind {
        return Success(None);
      }
      var popped := Pop();           // cannot fail: the same token was just peeked
      return Success(Some(popped.value));
    }

    /** Pops the next token and fails unless it has the given kind. */
    method Require(kind: TokenKind) returns (r: Result<Token, Error>)
      requires Valid() && !eofReached
      modifies this
      ensures r == Required(input, tokens, old(index), kind)
      ensures r.Success? ==> Valid() && index == old(index) + 1
    {
      var token :- Pop();
      if token.kind != kind {
        var e := ThrowErrorAt(token, Expected(kind));
        return Failure(e);
      }
      return Success(token);
    }

    method EnsureEofReached() returns (r: Outcome<Error>)
      requires Valid() && !eofReached
      modifies this
      ensures r.Pass? <==> Required(input, tokens, old(index), EndOfFile).Success?
      ensures r.Fail? ==> r.error == Required(input, tokens, old(index), EndOfFile).error
      ensures r.Pass? ==> Valid() && eofReached
    {
      var token := Require(EndOfFile);
      if token.Failure? {
        return Fail(token.error);
      }
      return Pass;
    }
  }
}
