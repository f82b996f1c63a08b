/** The queries of the compiler tests (`CompilerTests.cs`) over `SampleStruct`, with the token
    streams written out by hand: a nested query over the `List` property, and a query whose
    body is not a `bool`. */
module CompilerExamples {
  import opened Wrappers
  import opened Chars
  import opened Ast
  import opened Tokens
  import opened Diagnostics
  import opened Scanning
  import opened Parsing
  import opened ParsingProperties
  import opened QueryCompilation
  import ParserExamples

  const SampleStructType: TypeName := "SampleStruct"
  const StructFieldType: TypeName := "StructField"
  const StructFieldListType: TypeName := "List<StructField>"

  const LoginAttempts: Member := Member("LoginAttempts", Int32Type)
  const List: Member := Member("List", StructFieldListType)
  const NumberOfBananas: Member := Member("NumberOfBananas", Int32Type)

  /** The fields and properties of `SampleStruct`. */
  const SampleStructMembers: seq<Member> := [
    Member("FirstName", StringType), Member("LastName", StringType), LoginAttempts,
    Member("NumberOfTeeth", Int32Type), Member("CoolnessFactor", DoubleType),
    Member("WordsPerMinute", DoubleType), Member("NamesAreDifficult", BooleanType),
    Member("Flagged", BooleanType), Member("Record", StructFieldType), List]

  /** `SampleStruct`, its `StructField` elements with the fields `NumberOfBananas` and
      `EatPercent`, and the list type whose elements they are. */
  predicate IsSampleSchema(schema: Schema) {
    && SampleStructType in schema && schema[SampleStructType].members == SampleStructMembers
    && StructFieldType in schema && schema[StructFieldType].members == [NumberOfBananas, Member("EatPercent", DoubleType)]
    && StructFieldListType in schema && schema[StructFieldListType].element == Some(StructFieldType)
  }

  /** A name differs from `text` at position `k`, ignoring case, so it does not start with it. */
  lemma DiffersAt(name: string, text: string, k: nat)
    requires k < |text| && k < |name| && ToUpper(name[k]) != ToUpper(text[k])
    ensures !StartsWithIgnoreCase(name, text)
  {
    if |text| <= |name| {
      assert name[..|text|][k] == name[k];
    }
  }

  /** A text that starts the name of exactly one member, and is not that name, resolves to it. */
  lemma UniqueShortcut(s: string, context: ParserContext, token: Token, k: nat)
    requires token.start + |token.text| <= |s|
    requires k < |context.members| && StartsWithIgnoreCase(context.members[k].name, token.text)
    requires context.members[k].name != token.text
    requires forall j :: 0 <= j < |context.members| && j != k ==> !StartsWithIgnoreCase(context.members[j].name, token.text)
    ensures GetMemberInfo(s, context, token) == Success(context.members[k])
  {
    if m :| m in context.members && m.name == token.text {
      StartsWithItself(m.name);
    }
    ParserExamples.SingleCandidate(context.members, token.text, k);
  }

  /** `list` is short for `List`, the only member of `SampleStruct` starting with it. */
  lemma ListShortcut(s: string, schema: Schema, token: Token)
    requires IsSampleSchema(schema) && token.text == "list" && token.start + 4 <= |s|
    ensures GetMemberInfo(s, ContextOf(schema, SampleStructType, 0), token) == Success(List)
  {
    var context := ContextOf(schema, SampleStructType, 0);
    assert context.members == SampleStructMembers;
    OnlyListStartsWithList(token.text);
    UniqueShortcut(s, context, token, 9);
  }

  /** Of the members of `SampleStruct`, only the last, `List`, starts with `list`. */
  lemma OnlyListStartsWithList(text: string)
    requires text == "list"
    ensures StartsWithIgnoreCase(SampleStructMembers[9].name, text) && SampleStructMembers[9].name != text
    ensures forall j :: 0 <= j < 9 ==> !StartsWithIgnoreCase(SampleStructMembers[j].name, text)
  {
    forall j | 0 <= j < 9
      ensures !StartsWithIgnoreCase(SampleStructMembers[j].name, text)
    {
      DiffersAt(SampleStructMembers[j].name, text, if j == 1 || j == 2 then 1 else 0);
    }
    assert SampleStructMembers[9].name[..4] == "List";
  }

  /** `number` is short for `NumberOfBananas` among the fields of `StructField`. */
  lemma NumberShortcut(s: string, schema: Schema, token: Token)
    requires IsSampleSchema(schema) && token.text == "number" && token.start + 6 <= |s|
    ensures GetMemberInfo(s, ContextOf(schema, StructFieldType, 1), token) == Success(NumberOfBananas)
  {
    var context := ContextOf(schema, StructFieldType, 1);
    var members := context.members;
    assert members == [NumberOfBananas, Member("EatPercent", DoubleType)];
    DiffersAt(members[1].name, token.text, 0);
    assert members[0].name[..6] == "Number";
    UniqueShortcut(s, context, token, 0);
  }

  /** The tokens of `list any { number > 3 }`. */
  predicate ListAnyTokens(q: Query, gt: Token) {
    && |q.tokens| == 8
    && q.tokens[0] == ParserExamples.Tok(0, Identifier, "list")
    && q.tokens[1] == ParserExamples.Tok(5, NestedQueryOperator, "any")
    && q.tokens[2] == ParserExamples.Tok(9, BlockOpen, "{")
    && q.tokens[3] == ParserExamples.Tok(11, Identifier, "number")
    && q.tokens[4] == Success(gt) && gt.kind == TokenKind.GreaterThan
    && q.tokens[5] == Success(Token(20, Literal, "3", Some(LiteralOf(IntConstant(3)))))
    && q.tokens[6] == ParserExamples.Tok(22, BlockClose, "}")
    && q.tokens[7] == ParserExamples.Tok(23, EndOfFile, "")
  }

  /** The operands of `list any { number > 3 }`: `list` over a `SampleStruct` at depth 0, and
      `number` and `3` over a `StructField` one level down. */
  lemma ListAnyOperands(q: Query, gt: Token)
    requires IsSampleSchema(q.schema) && StreamShape(q.input, q.tokens) && ListAnyTokens(q, gt)
    ensures ListAnyFacts(q)
  {
    var c0, c1 := ContextOf(q.schema, SampleStructType, 0), ContextOf(q.schema, StructFieldType, 1);
    ListShortcut(q.input, q.schema, q.tokens[0].value);
    PrimaryMember(q, c0, 0, q.tokens[0].value, List);
    NumberShortcut(q.input, q.schema, q.tokens[3].value);
    PrimaryMember(q, c1, 3, q.tokens[3].value, NumberOfBananas);
    PrimaryConstant(q, c1, 5, q.tokens[5].value, IntConstant(3));
  }

  /** What the parse of `list any { number > 3 }` needs to know of the schema. */
  predicate ListAnyFacts(q: Query)
    requires StreamShape(q.input, q.tokens) && |q.tokens| == 8
  {
    var c0, c1 := ContextOf(q.schema, SampleStructType, 0), ContextOf(q.schema, StructFieldType, 1);
    && ParsePrimary(q, c0, 0) == Success(Parsed(MemberAccess(c0.inputParameter, List), 1))
    && ParsePrimary(q, c1, 3) == Success(Parsed(MemberAccess(c1.inputParameter, NumberOfBananas), 4))
    && ParsePrimary(q, c1, 5) == Success(Parsed(ConstantValue(IntConstant(3)), 6))
    && ElementType(q.schema, StructFieldListType) == Some(StructFieldType)
  }

  /** The filter of the nested query: `number > 3` over `it1`, a `StructField`, ends at `}`. */
  lemma NumberAboveThree(q: Query, gt: Token)
    requires StreamShape(q.input, q.tokens) && ListAnyTokens(q, gt) && ListAnyFacts(q)
    ensures var it1 := Parameter(1, StructFieldType);
      ParseExpr(q, ContextOf(q.schema, StructFieldType, 1), 3, LowestPrecedence) == Success(Parsed(
        Binary(Native(ExpressionType.GreaterThan), MemberAccess(it1, NumberOfBananas), ConstantValue(IntConstant(3))), 6))
  {
    var c := ContextOf(q.schema, StructFieldType, 1);
    var number := MemberAccess(c.inputParameter, NumberOfBananas);
    var info := GreaterThanOperator;
    LeftGrouping(q, c, 3, LowestPrecedence, Parsed(number, 4), gt, info, Parsed(ConstantValue(IntConstant(3)), 6));
    OperatorsReturnLeft(q, c, Binary(info.semantics, number, ConstantValue(IntConstant(3))), 6, LowestPrecedence);
  }

  /** The nested query `list any { number > 3 }` is the whole expression at depth 0. */
  lemma ListAnyExpr(q: Query, gt: Token)
    requires StreamShape(q.input, q.tokens) && ListAnyTokens(q, gt) && ListAnyFacts(q)
    ensures var it0, it1 := Parameter(0, SampleStructType), Parameter(1, StructFieldType);
      ParseExpr(q, ContextOf(q.schema, SampleStructType, 0), 0, LowestPrecedence) == Success(Parsed(
        NestedQuery(Any, MemberAccess(it0, List), Lambda(it1,
          Binary(Native(ExpressionType.GreaterThan), MemberAccess(it1, NumberOfBananas), ConstantValue(IntConstant(3))))), 7))
  {
    var c := ContextOf(q.schema, SampleStructType, 0);
    var it0, it1 := Parameter(0, SampleStructType), Parameter(1, StructFieldType);
    var list := MemberAccess(it0, List);
    var body := Binary(Native(ExpressionType.GreaterThan), MemberAccess(it1, NumberOfBananas), ConstantValue(IntConstant(3)));
    NumberAboveThree(q, gt);
    assert EqualsIgnoreCase(NestedQueryOperators[0], "any");
    NestedQueryTurn(q, c, list, 1, LowestPrecedence, q.tokens[1].value, StructFieldType, Parsed(body, 6));
    OperatorsReturnLeft(q, c, NestedQuery(Any, list, Lambda(it1, body)), 7, LowestPrecedence);
  }

  /** The parse of `list any { number > 3 }` once its operands are known. */
  lemma ListAnyParse(q: Query, gt: Token)
    requires StreamShape(q.input, q.tokens) && ListAnyTokens(q, gt) && ListAnyFacts(q)
    ensures var it0, it1 := Parameter(0, SampleStructType), Parameter(1, StructFieldType);
      Compiled(q, SampleStructType) == Success(Lambda(it0, NestedQuery(Any, MemberAccess(it0, List), Lambda(it1,
        Binary(Native(ExpressionType.GreaterThan), MemberAccess(it1, NumberOfBananas), ConstantValue(IntConstant(3)))))))
  {
    var it0, it1 := Parameter(0, SampleStructType), Parameter(1, StructFieldType);
    var body := Binary(Native(ExpressionType.GreaterThan), MemberAccess(it1, NumberOfBananas), ConstantValue(IntConstant(3)));
    ListAnyExpr(q, gt);
    FilterBody(q, SampleStructType, 0, 0, Parsed(NestedQuery(Any, MemberAccess(it0, List), Lambda(it1, body)), 7));
    CompileAtEnd(q, SampleStructType);
  }

  /** `list any { number > 3 }` compiles to `it0 => it0.List.Any(it1 => it1.NumberOfBananas > 3)`. */
  lemma ListAnyNumberAboveThree(q: Query, gt: Token)
    requires IsSampleSchema(q.schema) && StreamShape(q.input, q.tokens) && ListAnyTokens(q, gt)
    ensures var it0, it1 := Parameter(0, SampleStructType), Parameter(1, StructFieldType);
      Compiled(q, SampleStructType) == Success(Lambda(it0, NestedQuery(Any, MemberAccess(it0, List), Lambda(it1,
        Binary(Native(ExpressionType.GreaterThan), MemberAccess(it1, NumberOfBananas), ConstantValue(IntConstant(3)))))))
  {
    ListAnyOperands(q, gt);
    ListAnyParse(q, gt);
  }

  /** As written, `list any { number > 3 }` fails at its `}` (offset 22): the corrected close
      makes the `Any` node, the close as written reports the missing `Enumerable.Any`. */
  lemma ListAnyAsWritten(q: Query, gt: Token, left: Expr, filter: Lambda)
    requires StreamShape(q.input, q.tokens) && ListAnyTokens(q, gt)
    ensures NestedClose(q, left, q.tokens[1].value, filter, 6) == Success(Parsed(NestedQuery(Any, left, filter), 7))
    ensures NestedCloseAsWritten(q, left, q.tokens[1].value, filter, 6) == Failure(MissingQuantifierMethod(Any))
  {
    assert EqualsIgnoreCase(NestedQueryOperators[0], "any");
    KeywordQuantifier("any");
  }

  /** The tokens of `loginatt`. */
  predicate LoginAttTokens(q: Query) {
    && |q.tokens| == 2
    && q.tokens[0] == ParserExamples.Tok(0, Identifier, "loginatt")
    && q.tokens[1] == ParserExamples.Tok(8, EndOfFile, "")
  }

  /** `loginatt` is short for `LoginAttempts`. */
  lemma LoginAttShortcut(s: string, schema: Schema, token: Token)
    requires IsSampleSchema(schema) && token.text == "loginatt" && token.start + 8 <= |s|
    ensures GetMemberInfo(s, ContextOf(schema, SampleStructType, 0), token) == Success(LoginAttempts)
  {
    var context := ContextOf(schema, SampleStructType, 0);
    var members := context.members;
    assert members == SampleStructMembers;
    forall j | 0 <= j < 10 && j != 2
      ensures !StartsWithIgnoreCase(members[j].name, token.text)
    {
      DiffersAt(members[j].name, token.text, if j == 1 || j == 9 then 1 else 0);
    }
    assert members[2].name[..8] == "LoginAtt";
    UniqueShortcut(s, context, token, 2);
  }

  /** `loginatt` alone is the `int` property `LoginAttempts`, which makes no filter: compiling it
      fails the way `Expression.Lambda` does. */
  lemma LoginAttemptsIsNoFilter(q: Query)
    requires IsSampleSchema(q.schema) && StreamShape(q.input, q.tokens) && LoginAttTokens(q)
    ensures Compiled(q, SampleStructType) == Failure(NotPredicate(Int32Type))
  {
    var c := ContextOf(q.schema, SampleStructType, 0);
    LoginAttShortcut(q.input, q.schema, q.tokens[0].value);
    PrimaryMember(q, c, 0, q.tokens[0].value, LoginAttempts);
    LoginAttParse(q);
  }

  /** The parse of `loginatt` once it is known to be `LoginAttempts`. */
  lemma LoginAttParse(q: Query)
    requires StreamShape(q.input, q.tokens) && LoginAttTokens(q)
    requires var c := ContextOf(q.schema, SampleStructType, 0);
      ParsePrimary(q, c, 0) == Success(Parsed(MemberAccess(c.inputParameter, LoginAttempts), 1))
    ensures Compiled(q, SampleStructType) == Failure(NotPredicate(Int32Type))
  {
    var c := ContextOf(q.schema, SampleStructType, 0);
    var login := MemberAccess(c.inputParameter, LoginAttempts);
    OperatorsReturnLeft(q, c, login, 1, LowestPrecedence);
    FilterBody(q, SampleStructType, 0, 0, Parsed(login, 1));
    CompileParseFailure(q, SampleStructType);
  }
}
