/** The trees the parser builds for the queries of the parser tests (`ParserTests.cs`), over
    token streams written out by hand: operands around operators of one precedence group to
    the left, `&&` binds tighter than `||`, a unary operator takes the whole rest of the
    expression, and lower-case names resolve to members through the unique-prefix shortcut. */
module ParserExamples {
  import opened Wrappers
  import opened Chars
  import opened Ast
  import opened Tokens
  import opened Diagnostics
  import opened Scanning
  import opened Parsing
  import opened ParsingProperties

  /** `TestRecord`: six boolean properties `A` to `F`, in this order. */
  const TestRecordType: TypeName := "TestRecord"

  predicate IsTestRecord(schema: Schema) {
    && TestRecordType in schema
    && |schema[TestRecordType].members| == 6
    && forall j :: 0 <= j < 6 ==> schema[TestRecordType].members[j] == Member([UpperLetter(j)], BooleanType)
  }

  /** The `j`-th letter of the alphabet, upper and lower case. */
  function UpperLetter(j: nat): char
    requires j < 26
  {
    ('A' as int + j) as char
  }

  function LowerLetter(j: nat): char
    requires j < 26
  {
    ('a' as int + j) as char
  }

  /** The top-level filter `it0 => ...` over a `TestRecord`. */
  const It: Parameter := Parameter(0, TestRecordType)

  /** The access `it0.X` to the `k`-th property. */
  function Field(k: nat): Expr
    requires k < 6
  {
    MemberAccess(It, Member([UpperLetter(k)], BooleanType))
  }

  function AndAlso(left: Expr, right: Expr): Expr {
    Binary(Native(ExpressionType.And), left, right)
  }

  function OrElse(left: Expr, right: Expr): Expr {
    Binary(Native(ExpressionType.Or), left, right)
  }

  function Tok(start: nat, kind: TokenKind, text: string): Result<Token, Error> {
    Success(Token(start, kind, text, None))
  }

  lemma {:induction false} NoCandidate(members: seq<Member>, name: string)
    requires forall j :: 0 <= j < |members| ==> !StartsWithIgnoreCase(members[j].name, name)
    ensures Candidates(members, name) == []
  {
    if members != [] {
      NoCandidate(members[1..], name);
    }
  }

  /** The one member whose name starts with `name` is the only candidate. */
  lemma {:induction false} SingleCandidate(members: seq<Member>, name: string, k: nat)
    requires k < |members| && StartsWithIgnoreCase(members[k].name, name)
    requires forall j :: 0 <= j < |members| && j != k ==> !StartsWithIgnoreCase(members[j].name, name)
    ensures Candidates(members, name) == [members[k]]
  {
    if k == 0 {
      NoCandidate(members[1..], name);
    } else {
      assert !StartsWithIgnoreCase(members[0].name, name);
      SingleCandidate(members[1..], name, k - 1);
    }
  }

  /** A one-letter upper-case name starts with a one-letter lower-case text, ignoring case,
      exactly when they are the same letter. */
  lemma LetterPrefix(j: nat, k: nat)
    requires j < 26 && k < 26
    ensures StartsWithIgnoreCase([UpperLetter(j)], [LowerLetter(k)]) <==> j == k
  {
    var name, text := [UpperLetter(j)], [LowerLetter(k)];
    assert name[..1] == name;
    assert EqualsIgnoreCase(name, text) <==> ToUpper(name[0]) == ToUpper(text[0]);
    assert ToUpper(UpperLetter(j)) == UpperLetter(j);
    assert ToUpper(LowerLetter(k)) == UpperLetter(k);
  }

  lemma LowerLetters()
    ensures [LowerLetter(0)] == "a" && [LowerLetter(1)] == "b" && [LowerLetter(2)] == "c"
    ensures [LowerLetter(3)] == "d" && [LowerLetter(4)] == "e" && [LowerLetter(5)] == "f"
  {
  }

  /** A lower-case letter names the one member whose name starts with it, ignoring case. */
  lemma ShortcutMember(s: string, schema: Schema, token: Token, k: nat)
    requires IsTestRecord(schema) && k < 6 && token.text == [LowerLetter(k)] && token.start + 1 <= |s|
    ensures GetMemberInfo(s, ContextOf(schema, TestRecordType, 0), token) == Success(Member([UpperLetter(k)], BooleanType))
  {
    var members := ContextOf(schema, TestRecordType, 0).members;
    assert members == schema[TestRecordType].members;
    forall j | 0 <= j < 6
      ensures StartsWithIgnoreCase(members[j].name, token.text) <==> j == k
    {
      LetterPrefix(j, k);
    }
    assert FindMember(members, token.text).None? by {
      if FindMember(members, token.text).Some? {
        var m := FindMember(members, token.text).value;
        StartsWithItself(m.name);
      }
    }
    SingleCandidate(members, token.text, k);
  }

  /** An identifier token of one lower-case letter is the access to its member. */
  lemma FieldOperand(q: Query, i: nat, k: nat)
    requires StreamShape(q.input, q.tokens) && IsTestRecord(q.schema) && i < |q.tokens| && k < 6
    requires q.tokens[i].Success? && q.tokens[i].value.kind == Identifier && q.tokens[i].value.text == [LowerLetter(k)]
    ensures ParsePrimary(q, ContextOf(q.schema, TestRecordType, 0), i) == Success(Parsed(Field(k), i + 1))
  {
    ShortcutMember(q.input, q.schema, q.tokens[i].value, k);
    PrimaryMember(q, ContextOf(q.schema, TestRecordType, 0), i, q.tokens[i].value, Member([UpperLetter(k)], BooleanType));
  }

  /** The tokens of `a op1 b op2 c`, with `&&` or `||` for each operator. */
  predicate ThreeFields(q: Query, op1: Token, op2: Token) {
    && |q.tokens| == 6
    && q.tokens[0] == Tok(0, Identifier, "a") && q.tokens[1] == Success(op1)
    && q.tokens[2] == Tok(5, Identifier, "b") && q.tokens[3] == Success(op2)
    && q.tokens[4] == Tok(10, Identifier, "c") && q.tokens[5] == Tok(11, EndOfFile, "")
    && LogicalKind(op1.kind) && LogicalKind(op2.kind)
  }

  /** `&&` or `||`. */
  predicate LogicalKind(kind: TokenKind) {
    kind == TokenKind.And || kind == TokenKind.Or
  }

  /** `&&` and `||` are binary operators above the lowest precedence. */
  lemma LogicalOperator(kind: TokenKind)
    requires LogicalKind(kind)
    ensures kind != NestedQueryOperator && TryGetBinaryOperatorInfo(kind).Some?
    ensures TryGetBinaryOperatorInfo(kind).value.precedence > LowestPrecedence
  {
  }

  /** The end of input stops the operator loop at every precedence. */
  lemma EndStops(t: Result<Token, Error>, p1: int, p2: int, p3: int)
    requires t.Success? && t.value.kind == EndOfFile
    ensures Stops(t, p1) && Stops(t, p2) && Stops(t, p3)
  {
  }

  /** `a op1 b op2 c` has the shape that precedence climbing over two operators groups. */
  lemma ThreeFieldsShape(q: Query, op1: Token, op2: Token)
    requires IsTestRecord(q.schema) && StreamShape(q.input, q.tokens) && ThreeFields(q, op1, op2)
    ensures TwoOperatorQuery(q, ContextOf(q.schema, TestRecordType, 0), 0, LowestPrecedence,
      Parsed(Field(0), 1), op1, Parsed(Field(1), 3), op2, Parsed(Field(2), 5))
  {
    ThreeOperands(q, op1, op2);
    LogicalOperator(op1.kind);
    LogicalOperator(op2.kind);
    EndStops(q.tokens[5], LowestPrecedence, TryGetBinaryOperatorInfo(op1.kind).value.precedence,
      TryGetBinaryOperatorInfo(op2.kind).value.precedence);
  }

  lemma ThreeOperands(q: Query, op1: Token, op2: Token)
    requires IsTestRecord(q.schema) && StreamShape(q.input, q.tokens) && ThreeFields(q, op1, op2)
    ensures var c := ContextOf(q.schema, TestRecordType, 0);
      && ParsePrimary(q, c, 0) == Success(Parsed(Field(0), 1))
      && ParsePrimary(q, c, 2) == Success(Parsed(Field(1), 3))
      && ParsePrimary(q, c, 4) == Success(Parsed(Field(2), 5))
  {
    LowerLetters();
    FieldOperand(q, 0, 0);
    FieldOperand(q, 2, 1);
    FieldOperand(q, 4, 2);
  }

  /** `a && b || c` is `(A && B) || C`. */
  lemma AndThenOr(q: Query, and: Token, or: Token)
    requires IsTestRecord(q.schema) && StreamShape(q.input, q.tokens) && ThreeFields(q, and, or)
    requires and.kind == TokenKind.And && or.kind == TokenKind.Or
    ensures ParseFilter(q, TestRecordType, 0, 0) == Success(Parsed(Lambda(It, OrElse(AndAlso(Field(0), Field(1)), Field(2))), 5))
  {
    ThreeFieldsShape(q, and, or);
    TwoOperators(q, ContextOf(q.schema, TestRecordType, 0), 0, LowestPrecedence, Parsed(Field(0), 1), and, Parsed(Field(1), 3), or, Parsed(Field(2), 5));
    FilterBody(q, TestRecordType, 0, 0, Parsed(OrElse(AndAlso(Field(0), Field(1)), Field(2)), 5));
  }

  /** `a || b && c` is `A || (B && C)`. */
  lemma OrThenAnd(q: Query, or: Token, and: Token)
    requires IsTestRecord(q.schema) && StreamShape(q.input, q.tokens) && ThreeFields(q, or, and)
    requires or.kind == TokenKind.Or && and.kind == TokenKind.And
    ensures ParseFilter(q, TestRecordType, 0, 0) == Success(Parsed(Lambda(It, OrElse(Field(0), AndAlso(Field(1), Field(2)))), 5))
  {
    ThreeFieldsShape(q, or, and);
    TwoOperators(q, ContextOf(q.schema, TestRecordType, 0), 0, LowestPrecedence, Parsed(Field(0), 1), or, Parsed(Field(1), 3), and, Parsed(Field(2), 5));
    FilterBody(q, TestRecordType, 0, 0, Parsed(OrElse(Field(0), AndAlso(Field(1), Field(2))), 5));
  }

  /** `a || b || c` is `(A || B) || C`. */
  lemma OrThenOr(q: Query, or1: Token, or2: Token)
    requires IsTestRecord(q.schema) && StreamShape(q.input, q.tokens) && ThreeFields(q, or1, or2)
    requires or1.kind == TokenKind.Or && or2.kind == TokenKind.Or
    ensures ParseFilter(q, TestRecordType, 0, 0) == Success(Parsed(Lambda(It, OrElse(OrElse(Field(0), Field(1)), Field(2))), 5))
  {
    ThreeFieldsShape(q, or1, or2);
    TwoOperators(q, ContextOf(q.schema, TestRecordType, 0), 0, LowestPrecedence, Parsed(Field(0), 1), or1, Parsed(Field(1), 3), or2, Parsed(Field(2), 5));
    FilterBody(q, TestRecordType, 0, 0, Parsed(OrElse(OrElse(Field(0), Field(1)), Field(2)), 5));
  }

  /** The tokens of `a op1 b op2 c op3 d op4 e`. */
  predicate FiveFields(q: Query, op1: Token, op2: Token, op3: Token, op4: Token) {
    && |q.tokens| == 10
    && q.tokens[0] == Tok(0, Identifier, "a") && q.tokens[1] == Success(op1)
    && q.tokens[2] == Tok(5, Identifier, "b") && q.tokens[3] == Success(op2)
    && q.tokens[4] == Tok(10, Identifier, "c") && q.tokens[5] == Success(op3)
    && q.tokens[6] == Tok(15, Identifier, "d") && q.tokens[7] == Success(op4)
    && q.tokens[8] == Tok(20, Identifier, "e") && q.tokens[9] == Tok(21, EndOfFile, "")
  }

  /** The five operands of `a op1 b op2 c op3 d op4 e` are the properties `A` to `E`. */
  lemma FiveOperands(q: Query, op1: Token, op2: Token, op3: Token, op4: Token)
    requires IsTestRecord(q.schema) && StreamShape(q.input, q.tokens) && FiveFields(q, op1, op2, op3, op4)
    ensures var c := ContextOf(q.schema, TestRecordType, 0);
      && ParsePrimary(q, c, 0) == Success(Parsed(Field(0), 1))
      && ParsePrimary(q, c, 2) == Success(Parsed(Field(1), 3))
      && ParsePrimary(q, c, 4) == Success(Parsed(Field(2), 5))
      && ParsePrimary(q, c, 6) == Success(Parsed(Field(3), 7))
      && ParsePrimary(q, c, 8) == Success(Parsed(Field(4), 9))
  {
    LowerLetters();
    FieldOperand(q, 0, 0);
    FieldOperand(q, 2, 1);
    FieldOperand(q, 4, 2);
    FieldOperand(q, 6, 3);
    FieldOperand(q, 8, 4);
  }

  /** `a && b && c || d && e` is `((A && B) && C) || (D && E)`. */
  lemma AndAndOrAnd(q: Query, and1: Token, and2: Token, or: Token, and3: Token)
    requires IsTestRecord(q.schema) && StreamShape(q.input, q.tokens) && FiveFields(q, and1, and2, or, and3)
    requires and1.kind == TokenKind.And && and2.kind == TokenKind.And && or.kind == TokenKind.Or && and3.kind == TokenKind.And
    ensures ParseFilter(q, TestRecordType, 0, 0) == Success(Parsed(Lambda(It,
      OrElse(AndAlso(AndAlso(Field(0), Field(1)), Field(2)), AndAlso(Field(3), Field(4)))), 9))
  {
    AndAndOrAndExpr(q, and1, and2, or, and3);
    FilterBody(q, TestRecordType, 0, 0, Parsed(OrElse(AndAlso(AndAlso(Field(0), Field(1)), Field(2)), AndAlso(Field(3), Field(4))), 9));
  }

  lemma AndAndOrAndExpr(q: Query, and1: Token, and2: Token, or: Token, and3: Token)
    requires IsTestRecord(q.schema) && StreamShape(q.input, q.tokens) && FiveFields(q, and1, and2, or, and3)
    requires and1.kind == TokenKind.And && and2.kind == TokenKind.And && or.kind == TokenKind.Or && and3.kind == TokenKind.And
    ensures ParseExpr(q, ContextOf(q.schema, TestRecordType, 0), 0, LowestPrecedence) == Success(Parsed(
      OrElse(AndAlso(AndAlso(Field(0), Field(1)), Field(2)), AndAlso(Field(3), Field(4))), 9))
  {
    var c := ContextOf(q.schema, TestRecordType, 0);
    FiveOperands(q, and1, and2, or, and3);
    AndAndPrefix(q, c, Field(0), Field(1), Field(2), and1, and2, or);
    OrAndSuffix(q, c, AndAlso(AndAlso(Field(0), Field(1)), Field(2)), Field(3), Field(4), or, and3);
  }

  /** `x0 && x1 && x2` in front of `||` groups to the left. */
  lemma AndAndPrefix(q: Query, c: ParserContext, x0: Expr, x1: Expr, x2: Expr, and1: Token, and2: Token, or: Token)
    requires StreamShape(q.input, q.tokens) && |q.tokens| == 10
    requires q.tokens[1] == Success(and1) && q.tokens[3] == Success(and2) && q.tokens[5] == Success(or)
    requires and1.kind == TokenKind.And && and2.kind == TokenKind.And && or.kind == TokenKind.Or
    requires ParsePrimary(q, c, 0) == Success(Parsed(x0, 1)) && ParsePrimary(q, c, 2) == Success(Parsed(x1, 3))
    requires ParsePrimary(q, c, 4) == Success(Parsed(x2, 5))
    ensures ParseExpr(q, c, 0, LowestPrecedence) == ParseOperators(q, c, AndAlso(AndAlso(x0, x1), x2), 5, LowestPrecedence)
  {
    var and := TryGetBinaryOperatorInfo(TokenKind.And).value;
    LeftGrouping(q, c, 0, LowestPrecedence, Parsed(x0, 1), and1, and, Parsed(x1, 3));
    OperandGrouping(q, c, AndAlso(x0, x1), 3, LowestPrecedence, and2, and, Parsed(x2, 5));
  }

  /** `|| x3 && x4` at the end takes `x3 && x4` as its right operand. */
  lemma OrAndSuffix(q: Query, c: ParserContext, left: Expr, x3: Expr, x4: Expr, or: Token, and: Token)
    requires StreamShape(q.input, q.tokens) && |q.tokens| == 10
    requires q.tokens[5] == Success(or) && q.tokens[7] == Success(and)
    requires q.tokens[9].Success? && q.tokens[9].value.kind == EndOfFile
    requires or.kind == TokenKind.Or && and.kind == TokenKind.And
    requires ParsePrimary(q, c, 6) == Success(Parsed(x3, 7)) && ParsePrimary(q, c, 8) == Success(Parsed(x4, 9))
    ensures ParseOperators(q, c, left, 5, LowestPrecedence) == Success(Parsed(OrElse(left, AndAlso(x3, x4)), 9))
  {
    var andInfo, orInfo := TryGetBinaryOperatorInfo(TokenKind.And).value, TryGetBinaryOperatorInfo(TokenKind.Or).value;
    RightOperandOfTwo(q, c, 6, orInfo.precedence, Parsed(x3, 7), and, andInfo, Parsed(x4, 9));
    OperandOf(q, c, left, 5, LowestPrecedence, or, orInfo, Parsed(AndAlso(x3, x4), 9));
  }

  /** `a || b && c || d || e` is `((A || (B && C)) || D) || E`. */
  lemma OrAndOrOr(q: Query, or1: Token, and: Token, or2: Token, or3: Token)
    requires IsTestRecord(q.schema) && StreamShape(q.input, q.tokens) && FiveFields(q, or1, and, or2, or3)
    requires or1.kind == TokenKind.Or && and.kind == TokenKind.And && or2.kind == TokenKind.Or && or3.kind == TokenKind.Or
    ensures ParseFilter(q, TestRecordType, 0, 0) == Success(Parsed(Lambda(It,
      OrElse(OrElse(OrElse(Field(0), AndAlso(Field(1), Field(2))), Field(3)), Field(4))), 9))
  {
    OrAndOrOrExpr(q, or1, and, or2, or3);
    FilterBody(q, TestRecordType, 0, 0, Parsed(OrElse(OrElse(OrElse(Field(0), AndAlso(Field(1), Field(2))), Field(3)), Field(4)), 9));
  }

  lemma OrAndOrOrExpr(q: Query, or1: Token, and: Token, or2: Token, or3: Token)
    requires IsTestRecord(q.schema) && StreamShape(q.input, q.tokens) && FiveFields(q, or1, and, or2, or3)
    requires or1.kind == TokenKind.Or && and.kind == TokenKind.And && or2.kind == TokenKind.Or && or3.kind == TokenKind.Or
    ensures ParseExpr(q, ContextOf(q.schema, TestRecordType, 0), 0, LowestPrecedence) == Success(Parsed(
      OrElse(OrElse(OrElse(Field(0), AndAlso(Field(1), Field(2))), Field(3)), Field(4)), 9))
  {
    var c := ContextOf(q.schema, TestRecordType, 0);
    FiveOperands(q, or1, and, or2, or3);
    OrAndPrefix(q, c, Field(0), Field(1), Field(2), or1, and, or2);
    OrOrSuffix(q, c, OrElse(Field(0), AndAlso(Field(1), Field(2))), Field(3), Field(4), or2, or3);
  }

  /** `x0 || x1 && x2` in front of `||` takes `x1 && x2` as the right operand of the first `||`. */
  lemma OrAndPrefix(q: Query, c: ParserContext, x0: Expr, x1: Expr, x2: Expr, or1: Token, and: Token, or2: Token)
    requires StreamShape(q.input, q.tokens) && |q.tokens| == 10
    requires q.tokens[1] == Success(or1) && q.tokens[3] == Success(and) && q.tokens[5] == Success(or2)
    requires or1.kind == TokenKind.Or && and.kind == TokenKind.And && or2.kind == TokenKind.Or
    requires ParsePrimary(q, c, 0) == Success(Parsed(x0, 1)) && ParsePrimary(q, c, 2) == Success(Parsed(x1, 3))
    requires ParsePrimary(q, c, 4) == Success(Parsed(x2, 5))
    ensures ParseExpr(q, c, 0, LowestPrecedence) == ParseOperators(q, c, OrElse(x0, AndAlso(x1, x2)), 5, LowestPrecedence)
  {
    var andInfo, orInfo := TryGetBinaryOperatorInfo(TokenKind.And).value, TryGetBinaryOperatorInfo(TokenKind.Or).value;
    RightOperandOfTwo(q, c, 2, orInfo.precedence, Parsed(x1, 3), and, andInfo, Parsed(x2, 5));
    RightOperand(q, c, x0, 1, LowestPrecedence, or1, orInfo);
  }

  /** `|| x3 || x4` at the end groups to the left. */
  lemma OrOrSuffix(q: Query, c: ParserContext, left: Expr, x3: Expr, x4: Expr, or1: Token, or2: Token)
    requires StreamShape(q.input, q.tokens) && |q.tokens| == 10
    requires q.tokens[5] == Success(or1) && q.tokens[7] == Success(or2)
    requires q.tokens[9].Success? && q.tokens[9].value.kind == EndOfFile
    requires or1.kind == TokenKind.Or && or2.kind == TokenKind.Or
    requires ParsePrimary(q, c, 6) == Success(Parsed(x3, 7)) && ParsePrimary(q, c, 8) == Success(Parsed(x4, 9))
    ensures ParseOperators(q, c, left, 5, LowestPrecedence) == Success(Parsed(OrElse(OrElse(left, x3), x4), 9))
  {
    var orInfo := TryGetBinaryOperatorInfo(TokenKind.Or).value;
    OperandGrouping(q, c, left, 5, LowestPrecedence, or1, orInfo, Parsed(x3, 7));
    FinalOperand(q, c, OrElse(left, x3), 7, LowestPrecedence, or2, orInfo, Parsed(x4, 9));
  }

  /** `x op y` followed by the end of input is the one binary expression. */
  lemma OneOperator(q: Query, c: ParserContext, i: nat, x: Expr, op: Token, info: BinaryOperatorInfo, y: Expr)
    requires StreamShape(q.input, q.tokens) && i + 3 < |q.tokens|
    requires ParsePrimary(q, c, i) == Success(Parsed(x, i + 1)) && q.tokens[i + 1] == Success(op)
    requires op.kind != NestedQueryOperator && TryGetBinaryOperatorInfo(op.kind) == Some(info)
    requires info.precedence > LowestPrecedence && ParsePrimary(q, c, i + 2) == Success(Parsed(y, i + 3))
    requires q.tokens[i + 3].Success? && q.tokens[i + 3].value.kind == EndOfFile
    ensures ParseExpr(q, c, i, LowestPrecedence) == Success(Parsed(Binary(info.semantics, x, y), i + 3))
  {
    LeftGrouping(q, c, i, LowestPrecedence, Parsed(x, i + 1), op, info, Parsed(y, i + 3));
    OperatorsReturnLeft(q, c, Binary(info.semantics, x, y), i + 3, LowestPrecedence);
  }

  /** Two one-letter names `a` and `b` at tokens `i` and `i + 2` are the properties `A` and `B`. */
  lemma FieldsAB(q: Query, i: nat)
    requires IsTestRecord(q.schema) && StreamShape(q.input, q.tokens) && i + 2 < |q.tokens|
    requires q.tokens[i].Success? && q.tokens[i].value.kind == Identifier && q.tokens[i].value.text == "a"
    requires q.tokens[i + 2].Success? && q.tokens[i + 2].value.kind == Identifier && q.tokens[i + 2].value.text == "b"
    ensures var c := ContextOf(q.schema, TestRecordType, 0);
      ParsePrimary(q, c, i) == Success(Parsed(Field(0), i + 1)) && ParsePrimary(q, c, i + 2) == Success(Parsed(Field(1), i + 3))
  {
    LowerLetters();
    FieldOperand(q, i, 0);
    FieldOperand(q, i + 2, 1);
  }

  /** A filter `x op y` over `recordType`, followed by the end of input. */
  lemma OneOperatorFilter(q: Query, recordType: TypeName, x: Expr, op: Token, info: BinaryOperatorInfo, y: Expr)
    requires StreamShape(q.input, q.tokens) && |q.tokens| == 4
    requires var c := ContextOf(q.schema, recordType, 0);
      ParsePrimary(q, c, 0) == Success(Parsed(x, 1)) && ParsePrimary(q, c, 2) == Success(Parsed(y, 3))
    requires q.tokens[1] == Success(op) && op.kind != NestedQueryOperator && TryGetBinaryOperatorInfo(op.kind) == Some(info)
    requires info.precedence > LowestPrecedence
    requires q.tokens[3].Success? && q.tokens[3].value.kind == EndOfFile
    requires StaticType(Binary(info.semantics, x, y)) == BooleanType
    ensures ParseFilter(q, recordType, 0, 0)
      == Success(Parsed(Lambda(Parameter(0, recordType), Binary(info.semantics, x, y)), 3))
  {
    OneOperator(q, ContextOf(q.schema, recordType, 0), 0, x, op, info, y);
    FilterBody(q, recordType, 0, 0, Parsed(Binary(info.semantics, x, y), 3));
  }

  /** `a && b` is `A && B`. */
  lemma AndOfTwo(q: Query, and: Token)
    requires IsTestRecord(q.schema) && StreamShape(q.input, q.tokens)
    requires |q.tokens| == 4 && q.tokens[1] == Success(and) && and.kind == TokenKind.And
    requires q.tokens[0] == Tok(0, Identifier, "a") && q.tokens[2] == Tok(5, Identifier, "b")
    requires q.tokens[3] == Tok(6, EndOfFile, "")
    ensures ParseFilter(q, TestRecordType, 0, 0) == Success(Parsed(Lambda(It, AndAlso(Field(0), Field(1))), 3))
  {
    FieldsAB(q, 0);
    OneOperatorFilter(q, TestRecordType, Field(0), and, AndOperator, Field(1));
  }

  /** `!a && b` is `!(A && B)`: the operand of a unary operator is the whole expression after it. */
  lemma NotOfAnd(q: Query, not: Token, and: Token)
    requires IsTestRecord(q.schema) && StreamShape(q.input, q.tokens)
    requires |q.tokens| == 5 && q.tokens[0] == Success(not) && not.kind == TokenKind.Not
    requires q.tokens[2] == Success(and) && and.kind == TokenKind.And
    requires q.tokens[1] == Tok(1, Identifier, "a") && q.tokens[3] == Tok(6, Identifier, "b")
    requires q.tokens[4] == Tok(7, EndOfFile, "")
    ensures ParseFilter(q, TestRecordType, 0, 0)
      == Success(Parsed(Lambda(It, Unary(ExpressionType.Not, AndAlso(Field(0), Field(1)))), 4))
  {
    var c := ContextOf(q.schema, TestRecordType, 0);
    FieldsAB(q, 1);
    OneOperator(q, c, 1, Field(0), and, TryGetBinaryOperatorInfo(TokenKind.And).value, Field(1));
    UnaryOperand(q, c, not, AndAlso(Field(0), Field(1)));
    FilterBody(q, TestRecordType, 0, 0, Parsed(Unary(ExpressionType.Not, AndAlso(Field(0), Field(1))), 4));
  }

  /** A unary operator at the start whose operand reaches the end of input. */
  lemma UnaryOperand(q: Query, c: ParserContext, op: Token, x: Expr)
    requires StreamShape(q.input, q.tokens) && |q.tokens| > 1 && q.tokens[0] == Success(op) && op.kind == TokenKind.Not
    requires q.tokens[|q.tokens| - 1].Success? && q.tokens[|q.tokens| - 1].value.kind == EndOfFile
    requires ParseExpr(q, c, 1, LowestPrecedence) == Success(Parsed(x, |q.tokens| - 1))
    ensures ParseExpr(q, c, 0, LowestPrecedence) == Success(Parsed(Unary(ExpressionType.Not, x), |q.tokens| - 1))
  {
    UnaryPrimary(q, c, op, x);
    OperatorsReturnLeft(q, c, Unary(ExpressionType.Not, x), |q.tokens| - 1, LowestPrecedence);
  }

  lemma UnaryPrimary(q: Query, c: ParserContext, op: Token, x: Expr)
    requires StreamShape(q.input, q.tokens) && |q.tokens| > 1 && q.tokens[0] == Success(op) && op.kind == TokenKind.Not
    requires ParseExpr(q, c, 1, LowestPrecedence) == Success(Parsed(x, |q.tokens| - 1))
    ensures ParsePrimary(q, c, 0) == Success(Parsed(Unary(ExpressionType.Not, x), |q.tokens| - 1))
  {
    PrimaryUnary(q, c, 0, op);
  }

  /** `ShortcutTest`: an `int` property `Apples`, a `double` property `Bananas` and a
      `string` property `Password`. */
  const ShortcutTestType: TypeName := "ShortcutTest"

  const Apples: Member := Member("Apples", Int32Type)

  predicate IsShortcutTest(schema: Schema) {
    && ShortcutTestType in schema
    && |schema[ShortcutTestType].members| == 3
    && schema[ShortcutTestType].members[0] == Apples
    && schema[ShortcutTestType].members[1] == Member("Bananas", DoubleType)
    && schema[ShortcutTestType].members[2] == Member("Password", StringType)
  }

  /** `a` is short for `Apples`, the only property starting with an `a` in either case. */
  lemma ApplesShortcut(s: string, schema: Schema, token: Token)
    requires IsShortcutTest(schema) && token.text == "a" && token.start + 1 <= |s|
    ensures GetMemberInfo(s, ContextOf(schema, ShortcutTestType, 0), token) == Success(Apples)
  {
    var members := ContextOf(schema, ShortcutTestType, 0).members;
    assert members[0].name[..1] == "A" && members[1].name[..1] == "B" && members[2].name[..1] == "P";
    assert FindMember(members, token.text).None?;
    SingleCandidate(members, token.text, 0);
  }

  lemma ApplesOperands(q: Query)
    requires IsShortcutTest(q.schema) && StreamShape(q.input, q.tokens) && |q.tokens| == 4
    requires q.tokens[0] == Tok(0, Identifier, "a")
    requires q.tokens[2] == Success(Token(5, Literal, "0", Some(LiteralOf(IntConstant(0)))))
    ensures var c := ContextOf(q.schema, ShortcutTestType, 0);
      && ParsePrimary(q, c, 0) == Success(Parsed(MemberAccess(c.inputParameter, Apples), 1))
      && ParsePrimary(q, c, 2) == Success(Parsed(ConstantValue(IntConstant(0)), 3))
  {
    var c := ContextOf(q.schema, ShortcutTestType, 0);
    ApplesShortcut(q.input, q.schema, q.tokens[0].value);
    PrimaryMember(q, c, 0, q.tokens[0].value, Apples);
    PrimaryConstant(q, c, 2, q.tokens[2].value, IntConstant(0));
  }

  /** `a != 0` over a `ShortcutTest` is `Apples != 0`. */
  lemma ApplesNotZero(q: Query, ne: Token)
    requires IsShortcutTest(q.schema) && StreamShape(q.input, q.tokens)
    requires |q.tokens| == 4 && q.tokens[1] == Success(ne) && ne.kind == TokenKind.NotEqual
    requires q.tokens[0] == Tok(0, Identifier, "a")
    requires q.tokens[2] == Success(Token(5, Literal, "0", Some(LiteralOf(IntConstant(0)))))
    requires q.tokens[3] == Tok(6, EndOfFile, "")
    ensures var it := Parameter(0, ShortcutTestType);
      ParseFilter(q, ShortcutTestType, 0, 0) == Success(Parsed(Lambda(it,
        Binary(Native(ExpressionType.NotEqual), MemberAccess(it, Apples), ConstantValue(IntConstant(0)))), 3))
  {
    var it := Parameter(0, ShortcutTestType);
    ApplesOperands(q);
    OneOperatorFilter(q, ShortcutTestType, MemberAccess(it, Apples), ne, NotEqualOperator, ConstantValue(IntConstant(0)));
  }
}
