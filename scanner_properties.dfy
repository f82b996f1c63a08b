/** What one `Pop` of `Scanner.cs` reads: the shapes of words, numbers, strings, operators
    and the end of input, stated over the lexer `Lex` that the class `Scanner` follows. */
module ScanningProperties {
  import opened Wrappers
  import opened Chars
  import opened Ast
  import opened Tokens
  import opened Diagnostics
  import opened Scanning

  /** A token starts at the first character after the white space at the cursor, and its text
      is the input from there up to the cursor after it. */
  lemma TokenStart(s: string, p: nat)
    requires p <= |s|
    ensures var l := Lex(s, p);
      l.Success? ==>
        && (forall k :: p <= k < l.value.token.start ==> IsWhiteSpace(s[k]))
        && !IsWhiteSpace(At(s, l.value.token.start))
        && l.value.token.text == s[l.value.token.start..l.value.end]
  {
    SkippedWhitespace(s, p);
  }

  /** A run of characters of class `cc` that stops at `e` ends at `e`. */
  lemma {:induction false} SpanEndOfRun(s: string, p: nat, e: nat, cc: CharClass)
    requires p <= e <= |s| && !InClass(At(s, e), cc)
    requires forall k :: p <= k < e ==> InClass(s[k], cc)
    ensures SpanEnd(s, p, cc) == e
    decreases e - p
  {
    if p < e {
      SpanEndOfRun(s, p + 1, e, cc);
    }
  }

  /** A word is a letter, `_` or `@` followed by letters, numbers and `_`, up to the first
      other character. It is a nested-query keyword when it is `any` or `all` in any letter
      case, otherwise a Boolean literal when it is exactly `true` or `false`, otherwise an
      identifier. */
  lemma WordToken(s: string, b: nat, e: nat)
    requires b < e <= |s| && IsWordStart(s[b])
    requires forall k :: b < k < e ==> IsLetter(s[k]) || IsNumber(s[k]) || s[k] == '_'
    requires !(IsLetter(At(s, e)) || IsNumber(At(s, e)) || At(s, e) == '_')
    ensures LexAt(s, b).Success?
    ensures var l := LexAt(s, b).value; var t := l.token;
      && l.end == e && t.start == b && t.text == s[b..e]
      && (t.kind == NestedQueryOperator <==> EqualsIgnoreCase("any", t.text) || EqualsIgnoreCase("all", t.text))
      && (t.kind == Literal <==> t.kind != NestedQueryOperator && (t.text == "true" || t.text == "false"))
      && (t.kind == Literal ==> t.literal == Some(LiteralOf(BoolConstant(t.text == "true"))))
      && (t.kind != NestedQueryOperator && t.kind != Literal ==> t.kind == Identifier && t.literal.None?)
  {
    SpanEndOfRun(s, b + 1, e, WordChar);
    NestedQueryKeywords(s[b..e]);
  }

  /** A run of ASCII digits that no `.`, `:`, `/` or further number follows is an integer
      literal with the run's decimal value, or an overflow error above `int.MaxValue`. */
  lemma IntegerToken(s: string, b: nat, e: nat)
    requires b < e <= |s| && AllAsciiDigits(s[b..e])
    requires !IsNumber(At(s, e)) && At(s, e) != '.' && At(s, e) != ':' && At(s, e) != '/'
    ensures DigitsValue(s[b..e]) <= Int32MaxValue ==>
      LexAt(s, b) == Success(Lexed(Token(b, Literal, s[b..e], Some(LiteralOf(IntConstant(DigitsValue(s[b..e]) as int32)))), e))
    ensures DigitsValue(s[b..e]) > Int32MaxValue ==> LexAt(s, b) == Failure(Overflow(s[b..e]))
  {
    assert s[b..e][0] == s[b];
    NumberDispatch(s, b);
    DigitRun(s, b, e);
  }

  /** Digits, a `.` and digits again form one floating-point literal with that lexeme. */
  lemma DoubleToken(s: string, b: nat, e: nat, f: nat)
    requires b < e < f <= |s| && AllAsciiDigits(s[b..e]) && s[e] == '.' && AllAsciiDigits(s[e + 1..f])
    requires !IsNumber(At(s, f))
    ensures LexAt(s, b) == Success(Lexed(Token(b, Literal, s[b..f], Some(LiteralOf(DoubleConstant(s[b..f])))), f))
  {
    NumberDispatch(s, b);
    DigitRun(s, b, e);
    DigitRun(s, e, f);
    DigitsAndDot(s, b, e, f);
  }

  /** The lexeme of such a literal consists of ASCII digits and one `.`. */
  lemma DigitsAndDot(s: string, b: nat, e: nat, f: nat)
    requires b < e < f <= |s| && AllAsciiDigits(s[b..e]) && s[e] == '.' && AllAsciiDigits(s[e + 1..f])
    ensures forall k :: 0 <= k < |s[b..f]| ==> IsAsciiDigit(s[b..f][k]) || s[b..f][k] == '.'
  {
    forall k | 0 <= k < f - b
      ensures IsAsciiDigit(s[b..f][k]) || s[b..f][k] == '.'
    {
      if k < e - b {
        assert s[b..f][k] == s[b..e][k];
      } else if k > e - b {
        assert s[b..f][k] == s[e + 1..f][k - (e - b) - 1];
      }
    }
  }

  /** A `.` followed by digits is a floating-point literal too; a `.` followed by anything
      else is the member-access dot. */
  lemma DotToken(s: string, b: nat, f: nat)
    requires b < f <= |s| && s[b] == '.' && AllAsciiDigits(s[b + 1..f]) && !IsNumber(At(s, f))
    ensures f > b + 1 ==> LexAt(s, b) == Success(Lexed(Token(b, Literal, s[b..f], Some(LiteralOf(DoubleConstant(s[b..f])))), f))
    ensures f == b + 1 ==> LexAt(s, b) == Success(Lexed(Token(b, Dot, ".", None), b + 1))
  {
    DigitRun(s, b, f);
    assert forall k :: 0 <= k < f - b ==> s[b..f][k] == s[b + k];
  }

  /** The digits after offset `b` up to `e` are the run of numbers `SpanEnd` finds. */
  lemma DigitRun(s: string, b: nat, e: nat)
    requires b < e <= |s| && AllAsciiDigits(s[b + 1..e]) && !IsNumber(At(s, e))
    ensures SpanEnd(s, b + 1, Digit) == e
  {
    assert forall k :: b + 1 <= k < e ==> s[k] == s[b + 1..e][k - b - 1];
    SpanEndOfRun(s, b + 1, e, Digit);
  }

  /** A string literal runs to the next `"`; its value is the text strictly between the
      quotes, taken as it is. */
  lemma StringToken(s: string, b: nat, e: nat)
    requires b < e < |s| && s[b] == '"' && s[e] == '"'
    requires forall k :: b < k < e ==> s[k] != '"' && s[k] != '\0'
    ensures LexAt(s, b) == Success(Lexed(Token(b, Literal, s[b..e + 1], Some(LiteralOf(StringConstant(s[b + 1..e])))), e + 1))
  {
    SpanEndOfRun(s, b + 1, e, StringChar);
  }

  /** A `"` with no `"` after it is an unterminated string, reported at the opening quote. */
  lemma UnterminatedString(s: string, b: nat)
    requires b < |s| && s[b] == '"'
    requires forall k :: b < k < |s| ==> s[k] != '"'
    ensures LexAt(s, b).Failure?
    ensures var r := LexAt(s, b).error; r.QueryCompilation? && r.position == b && r.message == Message.UnterminatedString
  {
  }

  /** The first operator of the table that matches at `b` is the token, and the cursor moves
      past its lexeme. */
  lemma OperatorToken(s: string, b: nat, i: nat)
    requires b <= |s| && MatchOperator(s, b, 0) == Some(i)
    ensures var op := BinaryOperators[i];
      LexAt(s, b) == Success(Lexed(Token(b, op.tokenKind, op.operator, None), b + |op.operator|))
  {
    OperatorWithinInput(s, b, i);
    OperatorStart(s, b, i);
    var op := BinaryOperators[i];
    var e := b + |op.operator|;
    assert s[b..e] == op.operator;
    assert LexSymbol(s, b) == Success(MakeToken(b, op.tokenKind, s[b..e], None, e));
  }

  /** Every operator lexeme starts with one of `=!<>&|`, which start no word, number or
      string: the dispatch of `Pop` reaches the operator table. */
  lemma OperatorStart(s: string, b: nat, i: nat)
    requires b <= |s| && i < |BinaryOperators| && OperatorAt(s, b, i)
    ensures LexAt(s, b) == LexSymbol(s, b)
  {
    OperatorFirstCharacter(i);
    assert At(s, b) == BinaryOperators[i].operator[0];
    SymbolDispatch(s, b);
  }

  predicate IsOperatorStart(c: char) {
    c == '=' || c == '!' || c == '<' || c == '>' || c == '&' || c == '|'
  }

  lemma OperatorFirstCharacter(i: nat)
    requires i < |BinaryOperators|
    ensures BinaryOperators[i].operator != [] && IsOperatorStart(BinaryOperators[i].operator[0])
  {
  }

  lemma SymbolDispatch(s: string, b: nat)
    requires b <= |s| && IsOperatorStart(At(s, b))
    ensures LexAt(s, b) == LexSymbol(s, b)
  {
  }

  lemma NumberDispatch(s: string, b: nat)
    requires b < |s| && IsAsciiDigit(s[b])
    ensures LexAt(s, b) == LexNumber(s, b)
  {
  }

  /** Trying the operators in table order finds the longest one that matches. */
  lemma FirstMatchIsLongest(s: string, b: nat, i: nat, j: nat)
    requires MatchOperator(s, b, 0) == Some(i) && j < |BinaryOperators| && OperatorAt(s, b, j)
    ensures |BinaryOperators[j].operator| <= |BinaryOperators[i].operator|
  {
    NoOperatorShadowed();
  }

  /** A `'\0'` after the white space, or the end of the input, is the end-of-file token, with
      empty text; it is the only way to obtain that token. */
  lemma EndOfInput(s: string, p: nat)
    requires p <= |s|
    ensures var b := SkipWhitespace(s, p);
      (Lex(s, p).Success? && Lex(s, p).value.token.kind == EndOfFile) <==> At(s, b) == '\0'
    ensures var b := SkipWhitespace(s, p);
      At(s, b) == '\0' ==> Lex(s, p) == Success(Lexed(Token(b, EndOfFile, "", None), b))
  {
    var b := SkipWhitespace(s, p);
    if At(s, b) == '\0' {
      NoOperatorAtEnd(s, b);
    }
  }

  /** No operator lexeme contains `'\0'`, so none matches where the input reads `'\0'`. */
  lemma NoOperatorAtEnd(s: string, b: nat)
    requires At(s, b) == '\0'
    ensures MatchOperator(s, b, 0).None?
  {
    forall i | 0 <= i < |BinaryOperators|
      ensures !OperatorAt(s, b, i)
    {
      BinaryPrecedencesPositive(BinaryOperators[i]);
      assert BinaryOperators[i].operator[0] != At(s, b);
    }
  }

  /** A character that starts no token is reported as unexpected, with an empty span at it. */
  lemma UnexpectedCharacter(s: string, b: nat)
    requires b < |s|
    requires var c := s[b]; !IsWordStart(c) && !IsNumber(c) && c !in "$.\"(){}*/+-!~=<>&|\0"
    ensures LexAt(s, b) == Failure(ErrorAt(s, b, b, Message.UnexpectedCharacter(s[b])))
  {
    forall i | 0 <= i < |BinaryOperators|
      ensures !OperatorAt(s, b, i)
    {
      assert BinaryOperators[i].operator[0] != s[b];
    }
  }

  // ------------------------------------------------------------------------------------
  // Cases of the scanner's unit tests.

  /** A query holding one token, with no white space before it, is that token and then the
      end of input. */
  lemma OneTokenStream(s: string, t: Token)
    requires |s| > 0 && !IsWhiteSpace(s[0]) && t.kind != EndOfFile
    requires LexAt(s, 0) == Success(Lexed(t, |s|))
    ensures Stream(s, 0) == [Success(t), Success(Token(|s|, EndOfFile, "", None))]
  {
    NoWhitespace(s, 0);
    StreamAtEnd(s);
    assert Lex(s, 0) == Success(Lexed(t, |s|));
  }

  /** With no white space at the cursor, `Pop` reads the token right there. */
  lemma NoWhitespace(s: string, b: nat)
    requires b <= |s| && !IsWhiteSpace(At(s, b))
    ensures Lex(s, b) == LexAt(s, b)
  {
  }

  /** At the end of the input the stream is the end-of-file token alone. */
  lemma StreamAtEnd(s: string)
    ensures Stream(s, |s|) == [Success(Token(|s|, EndOfFile, "", None))]
  {
    EndOfInput(s, |s|);
  }

  /** `xxx` is one identifier, then the end of input. */
  lemma IdentifierExample(s: string)
    requires s == "xxx"
    ensures Stream(s, 0) == [Success(Token(0, Identifier, "xxx", None)), Success(Token(3, EndOfFile, "", None))]
  {
    WordToken(s, 0, 3);
    assert s[0..3] == s;
    OneTokenStream(s, Token(0, Identifier, "xxx", None));
  }

  /** A `'\0'` ends the input wherever it stands: `a\0b` is the identifier `a`, then the end
      of input at offset 1, and the `b` after it is never read. */
  lemma NulEndsInput(s: string)
    requires s == "a\0b"
    ensures Stream(s, 0) == [Success(Token(0, Identifier, "a", None)), Success(Token(1, EndOfFile, "", None))]
  {
    WordToken(s, 0, 1);
    assert s[0..1] == "a";
    NoWhitespace(s, 0);
    EndOfInput(s, 1);
    assert SkipWhitespace(s, 1) == 1;
  }

  /** `1234` is the integer literal 1234. */
  lemma IntegerExample(s: string)
    requires s == "1234"
    ensures Stream(s, 0) == [
      Success(Token(0, Literal, "1234", Some(LiteralOf(IntConstant(1234))))), Success(Token(4, EndOfFile, "", None))]
  {
    assert s[0..4] == s;
    assert DigitsValue(s) == 1234 by {
      assert s[..3] == "123" && "123"[..2] == "12" && "12"[..1] == "1" && "1"[..0] == "";
      assert DigitsValue("1") == 1;
      assert DigitsValue("12") == 12;
      assert DigitsValue("123") == 123;
    }
    IntegerToken(s, 0, 4);
    OneTokenStream(s, Token(0, Literal, "1234", Some(LiteralOf(IntConstant(1234)))));
  }

  /** `1.234` is one floating-point literal with that lexeme. */
  lemma DoubleExample(s: string)
    requires s == "1.234"
    ensures Stream(s, 0) == [
      Success(Token(0, Literal, "1.234", Some(LiteralOf(DoubleConstant("1.234"))))), Success(Token(5, EndOfFile, "", None))]
  {
    assert s[0..5] == s && s[0..1] == "1" && s[2..5] == "234";
    DoubleToken(s, 0, 1, 5);
    OneTokenStream(s, Token(0, Literal, "1.234", Some(LiteralOf(DoubleConstant("1.234")))));
  }

  /** `"string"` is the string literal `string`, quotes excluded. */
  lemma StringExample(s: string)
    requires s == "\"string\""
    ensures Stream(s, 0) == [
      Success(Token(0, Literal, "\"string\"", Some(LiteralOf(StringConstant("string"))))), Success(Token(8, EndOfFile, "", None))]
  {
    StringToken(s, 0, 7);
    assert s[0..8] == s;
    assert s[1..7] == [s[1], s[2], s[3], s[4], s[5], s[6]] == "string";
    OneTokenStream(s, Token(0, Literal, "\"string\"", Some(LiteralOf(StringConstant("string")))));
  }

  /** `true` is the Boolean literal `true`. */
  lemma TrueExample(s: string)
    requires s == "true"
    ensures Stream(s, 0) == [
      Success(Token(0, Literal, "true", Some(LiteralOf(BoolConstant(true))))), Success(Token(4, EndOfFile, "", None))]
  {
    WordToken(s, 0, 4);
    assert s[0..4] == s;
    assert !EqualsIgnoreCase("any", s) && !EqualsIgnoreCase("all", s);
    OneTokenStream(s, Token(0, Literal, "true", Some(LiteralOf(BoolConstant(true)))));
  }

  /** A string without its closing quote fails at the first `Pop`. */
  lemma UnterminatedExample(s: string)
    requires s == "\"unterminated string"
    ensures var ts := Stream(s, 0);
      ts[0].Failure? && ts[0].error.QueryCompilation? && ts[0].error.message == Message.UnterminatedString
  {
    UnterminatedString(s, 0);
  }

  /** A `'` is an unexpected character. */
  lemma UnexpectedExample(s: string)
    requires s == "' unexpected character"
    ensures Stream(s, 0)[0] == Failure(ErrorAt(s, 0, 0, Message.UnexpectedCharacter('\'')))
  {
    UnexpectedCharacter(s, 0);
  }

  /** `!=` is one operator, not `!` followed by `=`: operators are tried before punctuation. */
  lemma NotEqualExample(s: string)
    requires s == "!="
    ensures LexAt(s, 0) == Success(Lexed(Token(0, TokenKind.NotEqual, "!=", None), 2))
  {
    assert !OperatorAt(s, 0, 0) by { assert BinaryOperators[0].operator[0] != At(s, 0); }
    assert OperatorAt(s, 0, 1);
    OperatorToken(s, 0, 1);
  }

  /** `!` before anything but `=` is the `Not` token. */
  lemma NotExample(s: string)
    requires s == "!a"
    ensures LexAt(s, 0) == Success(Lexed(Token(0, TokenKind.Not, "!", None), 1))
  {
    forall i | 0 <= i < |BinaryOperators|
      ensures !OperatorAt(s, 0, i)
    {
      if i == 1 {
        assert BinaryOperators[1].operator[1] != At(s, 1);
      } else {
        assert BinaryOperators[i].operator[0] != At(s, 0);
      }
    }
  }
}
