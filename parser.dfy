/** The precedence-climbing parser of `Parser.cs`. The functions `ParseExpr`, `ParsePrimary`,
    `ParseOperators` and `ParseFilter` say what parsing the token stream from a given result on
    yields; the class `Parser` pops the same tokens from a `Scanner` and is proved to follow them. */
module Parsing {
  import opened Wrappers
  import opened Chars
  import opened Ast
  import opened Tokens
  import opened Diagnostics
  import opened Scanning

  /** `ParserContext`: the nesting depth, the members of the type being filtered (the
      dictionary in its enumeration order) and the lambda parameter member accesses go through. */
  datatype ParserContext = ParserContext(depth: nat, members: seq<Member>, inputParameter: Parameter)

  /** `int.MinValue`, the floor a parse starts from. */
  const LowestPrecedence: int := Int32MinValue

  /** What is parsed: the schema reflection would consult, the input, and the stream of results
      the scanner pops from it. */
  datatype Query = Query(schema: Schema, input: string, tokens: seq<Result<Token, Error>>)

  /** A parsed value and the stream position after it. */
  datatype Parsed<T> = Parsed(value: T, next: nat)

  function ValueOf<T>(r: Result<Parsed<T>, Error>): Result<T, Error> {
    match r
    case Success(p) => Success(p.value)
    case Failure(e) => Failure(e)
  }

  // ------------------------------------------------------------------------------------
  // Member resolution (`GetMemberInfo`).

  /** The dictionary lookup `TryGetValue`: the member whose name is exactly `name`. */
  function FindMember(members: seq<Member>, name: string): (r: Option<Member>)
    ensures r.Some? ==> r.value in members && r.value.name == name
    ensures r.None? ==> forall m :: m in members ==> m.name != name
  {
    if members == [] then None
    else if members[0].name == name then Some(members[0])
    else FindMember(members[1..], name)
  }

  /** The members whose name starts with `name`, ignoring case, in enumeration order. */
  function Candidates(members: seq<Member>, name: string): (c: seq<Member>)
    ensures forall m :: m in c <==> m in members && StartsWithIgnoreCase(m.name, name)
    ensures |c| <= |members|
  {
    if members == [] then []
    else
      assert forall m :: m in members <==> m == members[0] || m in members[1..];
      (if StartsWithIgnoreCase(members[0].name, name) then [members[0]] else [])
        + Candidates(members[1..], name)
  }

  function Names(members: seq<Member>): (r: seq<string>)
    ensures |r| == |members| && forall k :: 0 <= k < |members| ==> r[k] == members[k].name
  {
    if members == [] then [] else [members[0].name] + Names(members[1..])
  }

  /** The member an identifier token names: the one with exactly that name, else the one
      member whose name the token's text starts, ignoring case; no such member and more than
      one are errors at the token. */
  function GetMemberInfo(s: string, context: ParserContext, token: Token): (r: Result<Member, Error>)
    requires token.start + |token.text| <= |s|
    ensures r.Success? ==> r.value in context.members && StartsWithIgnoreCase(r.value.name, token.text)
    ensures r.Failure? ==>
      && r.error.QueryCompilation?
      && r.error == ErrorAt(s, token.start, token.start + |token.text|, r.error.message)
      && (r.error.message.MemberNotFound? || r.error.message.Ambiguous?)
  {
    match FindMember(context.members, token.text)
    case Some(m) =>
      EqualsIgnoreCaseIsPrefix(m.name, m.name);
      Success(m)
    case None =>
      var candidates := Candidates(context.members, token.text);
      if |candidates| == 0 then
        Failure(ErrorAt(s, token.start, token.start + |token.text|, MemberNotFound(token.text)))
      else if |candidates| > 1 then
        Failure(ErrorAt(s, token.start, token.start + |token.text|, Ambiguous(token.text, Names(candidates))))
      else Success(candidates[0])
  }

  // ------------------------------------------------------------------------------------
  // The parse of a token stream.

  /** The `Enumerable` method `token.Text.ToLower()` selects for a nested query. */
  function QuantifierOf(text: string): (r: Result<Quantifier, Error>)
    ensures r == Success(Any) <==> EqualsIgnoreCase("any", text)
    ensures r == Success(All) <==> EqualsIgnoreCase("all", text)
    ensures r.Failure? ==> r.error == InvalidOperation(UnknownNestedQueryOperator(text))
  {
    LowerCaseMatch("any", text);
    LowerCaseMatch("all", text);
    var lower := ToLowerString(text);
    if lower == "any" then Success(Any)
    else if lower == "all" then Success(All)
    else Failure(InvalidOperation(UnknownNestedQueryOperator(text)))
  }

  /** The constant a literal token stands for: `token.LiteralValue!.Value.Opaque`. */
  function ConstantOf(token: Token): (r: Result<Constant, Error>)
    ensures token.literal.Some? && token.literal.value.HasOneVariant() ==>
      r.Success? && LiteralOf(r.value) == token.literal.value
    ensures r.Failure? <==> token.literal.None? || token.literal.value.Opaque().None?
    ensures r.Failure? ==> r.error == InvalidOperation(MissingLiteralValue)
  {
    if token.literal.None? then Failure(InvalidOperation(MissingLiteralValue))
    else
      OpaqueOfLiteral(IntConstant(0), token.literal.value);
      match token.literal.value.Opaque()
      case None => Failure(InvalidOperation(MissingLiteralValue))
      case Some(c) => Success(c)
  }

  /** `ParseExpression(floor)` from result `i`: a primary expression, then the operators after it. */
  function ParseExpr(q: Query, context: ParserContext, i: nat, floor: int): (r: Result<Parsed<Expr>, Error>)
    requires StreamShape(q.input, q.tokens) && i < |q.tokens|
    ensures r.Success? ==> i < r.value.next < |q.tokens|
    decreases |q.tokens| - i, 2
  {
    var left :- ParsePrimary(q, context, i);
    ParseOperators(q, context, left.value, left.next, floor)
  }

  /** `ParsePrimaryExpression` from result `i`. */
  function ParsePrimary(q: Query, context: ParserContext, i: nat): (r: Result<Parsed<Expr>, Error>)
    requires StreamShape(q.input, q.tokens) && i < |q.tokens|
    ensures r.Success? ==> i < r.value.next < |q.tokens|
    decreases |q.tokens| - i, 1
  {
    match q.tokens[i]
    case Failure(e) => Failure(e)
    case Success(token) => PrimaryAt(q, context, i, token)
  }

  /** The primary expression that starts with the token `token` at result `i`. */
  function PrimaryAt(q: Query, context: ParserContext, i: nat, token: Token): (r: Result<Parsed<Expr>, Error>)
    requires StreamShape(q.input, q.tokens) && i < |q.tokens| && q.tokens[i] == Success(token)
    ensures r.Success? ==> i < r.value.next < |q.tokens|
    decreases |q.tokens| - i, 0
  {
      if token.kind == Identifier then
        var member :- GetMemberInfo(q.input, context, token);
        Success(Parsed(MemberAccess(context.inputParameter, member), i + 1))
      else if token.kind == Literal then
        var c :- ConstantOf(token);
        Success(Parsed(ConstantValue(c), i + 1))
      else if token.kind == ParenthesisOpen then
        var inner :- ParseExpr(q, context, i + 1, LowestPrecedence);
        var close :- Required(q.input, q.tokens, inner.next, ParenthesisClose);
        Success(Parsed(inner.value, inner.next + 1))
      else if token.kind == Minus || token.kind == TokenKind.Not then
        var operatorInfo := TryGetUnaryOperatorInfo(token.kind).value;
        var operand :- ParseExpr(q, context, i + 1, LowestPrecedence);
        Success(Parsed(Unary(operatorInfo.expressionType, operand.value), operand.next))
      else
        Failure(ErrorAt(q.input, token.start, token.start + |token.text|, InvalidExpressionToken(token.kind)))
  }

  /** The `while (true)` loop of `ParseExpression` from result `i`, with `left` parsed so far:
      turn after turn, until one returns `left`. */
  function ParseOperators(q: Query, context: ParserContext, left: Expr, i: nat, floor: int): (r: Result<Parsed<Expr>, Error>)
    requires StreamShape(q.input, q.tokens) && i < |q.tokens|
    ensures r.Success? ==> i <= r.value.next < |q.tokens|
    decreases |q.tokens| - i, 2
  {
    var turn :- OperatorTurn(q, context, left, i, floor);
    match turn
    case None => Success(Parsed(left, i))
    case Some(p) => ParseOperators(q, context, p.value, p.next, floor)
  }

  /** One turn of the loop at result `i`: a nested query, or a binary operator that binds
      tighter than `floor`, extends `left`; at any other token the loop returns (`None`). */
  function OperatorTurn(q: Query, context: ParserContext, left: Expr, i: nat, floor: int): (r: Result<Option<Parsed<Expr>>, Error>)
    requires StreamShape(q.input, q.tokens) && i < |q.tokens|
    ensures r.Success? && r.value.Some? ==> i < r.value.value.next < |q.tokens|
    decreases |q.tokens| - i, 1
  {
    match q.tokens[i]
    case Failure(e) => Failure(e)
    case Success(token) =>
      if token.kind == NestedQueryOperator then
        var nested :- ParseNested(q, context, left, token, i + 1);
        Success(Some(nested))
      else
        match TryGetBinaryOperatorInfo(token.kind)
        case None => Success(None)
        case Some(info) =>
          if info.precedence <= floor then Success(None)
          else
            var right :- ParseExpr(q, context, i + 1, info.precedence);
            Success(Some(Parsed(Binary(info.semantics, left, right.value), right.next)))
  }

  /** A turn at a scanning error is that error. */
  lemma FailedTurn(q: Query, context: ParserContext, left: Expr, i: nat, floor: int)
    requires StreamShape(q.input, q.tokens) && i < |q.tokens| && q.tokens[i].Failure?
    ensures OperatorTurn(q, context, left, i, floor) == Failure(q.tokens[i].error)
  {
  }

  /** A turn at a binary operator that binds tighter than the floor parses the right operand
      with the operator's precedence as its floor and makes the binary node the new `left`. */
  lemma BinaryTurn(q: Query, context: ParserContext, left: Expr, i: nat, floor: int, token: Token, info: BinaryOperatorInfo)
    requires StreamShape(q.input, q.tokens) && i < |q.tokens| && q.tokens[i] == Success(token)
    requires token.kind != NestedQueryOperator && TryGetBinaryOperatorInfo(token.kind) == Some(info)
    requires info.precedence > floor
    ensures i + 1 < |q.tokens|
    ensures TurnValue(OperatorTurn(q, context, left, i, floor))
      == match ParseExpr(q, context, i + 1, info.precedence)
         case Failure(e) => Failure(e)
         case Success(right) => Success(Some(Binary(info.semantics, left, right.value)))
    ensures OperatorTurn(q, context, left, i, floor).Success? ==>
      OperatorTurn(q, context, left, i, floor).value.Some? &&
      OperatorTurn(q, context, left, i, floor).value.value.next == ParseExpr(q, context, i + 1, info.precedence).value.next
  {
  }

  /** A turn at a token that is neither a nested query's keyword nor a binary operator binding
      tighter than the floor ends the loop. */
  lemma NoTurn(q: Query, context: ParserContext, left: Expr, i: nat, floor: int, token: Token)
    requires StreamShape(q.input, q.tokens) && i < |q.tokens| && q.tokens[i] == Success(token)
    requires token.kind != NestedQueryOperator
    requires TryGetBinaryOperatorInfo(token.kind).None? || TryGetBinaryOperatorInfo(token.kind).value.precedence <= floor
    ensures OperatorTurn(q, context, left, i, floor) == Success(None)
  {
  }

  /** A turn at a nested query's keyword is the rest of that nested query. */
  lemma NestedTurn(q: Query, context: ParserContext, left: Expr, i: nat, floor: int, token: Token)
    requires StreamShape(q.input, q.tokens) && i < |q.tokens| && q.tokens[i] == Success(token)
    requires token.kind == NestedQueryOperator
    ensures i + 1 < |q.tokens|
    ensures TurnValue(OperatorTurn(q, context, left, i, floor))
      == match ParseNested(q, context, left, token, i + 1)
         case Failure(e) => Failure(e)
         case Success(nested) => Success(Some(nested.value))
    ensures OperatorTurn(q, context, left, i, floor).Success? ==>
      OperatorTurn(q, context, left, i, floor).value.Some? &&
      OperatorTurn(q, context, left, i, floor).value.value.next == ParseNested(q, context, left, token, i + 1).value.next
  {
  }

  function TurnValue(r: Result<Option<Parsed<Expr>>, Error>): Result<Option<Expr>, Error> {
    match r
    case Failure(e) => Failure(e)
    case Success(None) => Success(None)
    case Success(Some(p)) => Success(Some(p.value))
  }

  /** The rest of a nested query after its keyword `token`, from result `i`: `{`, the filter
      over the element type of `left` one level deeper, and `}`. */
  function ParseNested(q: Query, context: ParserContext, left: Expr, token: Token, i: nat): (r: Result<Parsed<Expr>, Error>)
    requires StreamShape(q.input, q.tokens) && i < |q.tokens|
    ensures r.Success? ==> i < r.value.next < |q.tokens|
    decreases |q.tokens| - i, 0
  {
    var open :- Required(q.input, q.tokens, i, BlockOpen);
    var leftType := StaticType(left);
    var elementType :- (match ElementType(q.schema, leftType)
                        case Some(t) => Success(t)
                        case None => Failure(InvalidOperation(NotEnumerable(leftType))));
    NestedFilter(q, context, left, token, elementType, i + 1)
  }

  /** Once `{` is found and `left` is a sequence of `elementType`, the rest of the nested query
      is its filter. */
  lemma NestedAfterOpen(q: Query, context: ParserContext, left: Expr, token: Token, elementType: TypeName, i: nat)
    requires StreamShape(q.input, q.tokens) && i + 1 < |q.tokens|
    requires q.tokens[i].Success? && q.tokens[i].value.kind == BlockOpen
    requires ElementType(q.schema, StaticType(left)) == Some(elementType)
    ensures ParseNested(q, context, left, token, i) == NestedFilter(q, context, left, token, elementType, i + 1)
  {
  }

  /** The filter of a nested query over elements of type `elementType`, from result `i`
      just after `{`, then the quantifier the keyword names and `}`. */
  function NestedFilter(q: Query, context: ParserContext, left: Expr, token: Token, elementType: TypeName, i: nat): (r: Result<Parsed<Expr>, Error>)
    requires StreamShape(q.input, q.tokens) && i < |q.tokens|
    ensures r.Success? ==> i < r.value.next < |q.tokens|
    decreases |q.tokens| - i, 4
  {
    var filter :- ParseFilter(q, elementType, context.depth + 1, i);
    NestedClose(q, left, token, filter.value, filter.next)
  }

  /** The end of a nested query whose filter is parsed up to result `i`: the quantifier the
      keyword `token` names, and `}`. */
  function NestedClose(q: Query, left: Expr, token: Token, filter: Lambda, i: nat): (r: Result<Parsed<Expr>, Error>)
    requires StreamShape(q.input, q.tokens) && i < |q.tokens|
    ensures r.Success? ==> r.value.next == i + 1 < |q.tokens|
  {
    var quantifier :- QuantifierOf(token.text);
    var close :- Required(q.input, q.tokens, i, BlockClose);
    Success(Parsed(NestedQuery(quantifier, left, filter), i + 1))
  }

  /** `NestedClose` as written: `GetMethod("Any"/"All", BindingFlags.Static, ...)` asks for no
      public member and for non-generic parameter types, so it finds nothing, and the
      `Expression.Call` that follows `}` fails on the missing method. The errors before it are
      those of `NestedClose`. */
  function NestedCloseAsWritten(q: Query, left: Expr, token: Token, filter: Lambda, i: nat): (r: Result<Parsed<Expr>, Error>)
    requires StreamShape(q.input, q.tokens) && i < |q.tokens|
    ensures r.Failure?
    ensures NestedClose(q, left, token, filter, i).Failure? ==> r.error == NestedClose(q, left, token, filter, i).error
    ensures NestedClose(q, left, token, filter, i).Success? ==>
      r.error == MissingQuantifierMethod(NestedClose(q, left, token, filter, i).value.value.quantifier)
  {
    var quantifier :- QuantifierOf(token.text);
    var close :- Required(q.input, q.tokens, i, BlockClose);
    Failure(MissingQuantifierMethod(quantifier))
  }

  /** `CompileFilterExpression(type, scanner, depth)` from result `i`: the lambda over the
      parameter `it{depth}` whose body is the expression parsed in the context of `type`;
      a body that is not a `bool` makes no `Func<type, bool>`. */
  function ParseFilter(q: Query, recordType: TypeName, depth: nat, i: nat): (r: Result<Parsed<Lambda>, Error>)
    requires StreamShape(q.input, q.tokens) && i < |q.tokens|
    ensures r.Success? ==> i < r.value.next < |q.tokens|
    ensures r.Success? ==> StaticType(r.value.value.body) == BooleanType
    decreases |q.tokens| - i, 3
  {
    var parameter := Parameter(depth, recordType);
    var body :- ParseExpr(q, ContextOf(q.schema, recordType, depth), i, LowestPrecedence);
    var bodyType := StaticType(body.value);
    if bodyType != BooleanType then Failure(NotPredicate(bodyType))
    else Success(Parsed(Lambda(parameter, body.value), body.next))
  }

  function ContextOf(schema: Schema, recordType: TypeName, depth: nat): ParserContext {
    ParserContext(depth, MembersOf(schema, recordType), Parameter(depth, recordType))
  }

  // ------------------------------------------------------------------------------------
  // The parser over a scanner.

  class Parser {
    const scanner: Scanner
    const context: ParserContext
    /** What reflection would tell about the types involved. */
    const schema: Schema

    constructor (scanner: Scanner, context: ParserContext, schema: Schema)
      ensures this.scanner == scanner && this.context == context && this.schema == schema
    {
      this.scanner, this.context, this.schema := scanner, context, schema;
    }

    ghost function Source(): Query {
      Query(schema, scanner.input, scanner.tokens)
    }

    /** The scanner's stream has results left to pop. */
    ghost predicate Ready()
      reads scanner
    {
      scanner.Valid() && scanner.index < |scanner.tokens|
    }

    method ParseExpression(previousPrecedence: int) returns (r: Result<Expr, Error>)
      requires Ready()
      modifies scanner
      ensures var expected := ParseExpr(Source(), context, old(scanner.index), previousPrecedence);
        r == ValueOf(expected) && (r.Success? ==> Ready() && scanner.index == expected.value.next)
      decreases |scanner.tokens| - scanner.index, 1
    {
      ghost var i0 := scanner.index;
      var left :- ParsePrimaryExpression();
      while true
        invariant Ready()
        invariant ParseOperators(Source(), context, left, scanner.index, previousPrecedence)
          == ParseExpr(Source(), context, i0, previousPrecedence)
        decreases |scanner.tokens| - scanner.index
      {
        var turn :- ParseOperatorTurn(left, previousPrecedence);
        if turn.None? {
          return Success(left);
        }
        left := turn.value;
      }
    }

    /** One turn of the loop of `ParseExpression`; `None` is its `return left`. */
    method ParseOperatorTurn(left: Expr, previousPrecedence: int) returns (r: Result<Option<Expr>, Error>)
      requires Ready()
      modifies scanner
      ensures var expected := OperatorTurn(Source(), context, left, old(scanner.index), previousPrecedence);
        && r == TurnValue(expected)
        && (r.Success? && r.value.None? ==> unchanged(scanner))
        && (r.Success? && r.value.Some? ==> Ready() && scanner.index == expected.value.value.next)
      decreases |scanner.tokens| - scanner.index, 2
    {
      ghost var i := scanner.index;
      var tried := scanner.TryPop(NestedQueryOperator);
      if tried.Failure? {
        FailedTurn(Source(), context, left, i, previousPrecedence);
        return Failure(tried.error);
      }
      if tried.value.Some? {
        r := ParseNestedTurn(left, previousPrecedence, tried.value.value);
        return;
      }
      r := ParseBinaryOperator(left, previousPrecedence);
    }

    /** The turn at the nested query keyword `token`, once it is popped. */
    method ParseNestedTurn(left: Expr, previousPrecedence: int, token: Token) returns (r: Result<Option<Expr>, Error>)
      requires Ready() && scanner.index > 0 && scanner.tokens[scanner.index - 1] == Success(token)
      requires token.kind == NestedQueryOperator
      modifies scanner
      ensures var expected := OperatorTurn(Source(), context, left, old(scanner.index) - 1, previousPrecedence);
        && r == TurnValue(expected)
        && (r.Success? && r.value.None? ==> unchanged(scanner))
        && (r.Success? && r.value.Some? ==> Ready() && scanner.index == expected.value.value.next)
      decreases |scanner.tokens| - scanner.index, 1
    {
      NestedTurn(Source(), context, left, scanner.index - 1, previousPrecedence, token);
      var nested :- ParseNestedQuery(token, left);
      return Success(Some(nested));
    }

    /** The turn at a token other than a nested query's keyword: a binary operator that binds
        tighter than `previousPrecedence` takes the expression after it as its right operand. */
    method ParseBinaryOperator(left: Expr, previousPrecedence: int) returns (r: Result<Option<Expr>, Error>)
      requires Ready() && scanner.tokens[scanner.index].Success?
      requires scanner.tokens[scanner.index].value.kind != NestedQueryOperator
      modifies scanner
      ensures var expected := OperatorTurn(Source(), context, left, old(scanner.index), previousPrecedence);
        && r == TurnValue(expected)
        && (r.Success? && r.value.None? ==> unchanged(scanner))
        && (r.Success? && r.value.Some? ==> Ready() && scanner.index == expected.value.value.next)
      decreases |scanner.tokens| - scanner.index, 1
    {
      ghost var i := scanner.index;
      var peeked := scanner.Peek();
      var token := peeked.value;
      var operatorInfo := TryGetBinaryOperatorInfo(token.kind);
      if operatorInfo.None? || operatorInfo.value.precedence <= previousPrecedence {
        NoTurn(Source(), context, left, i, previousPrecedence, token);
        return Success(None);
      }
      r := ParseRightOperand(left, previousPrecedence, token, operatorInfo.value);
    }

    /** Pops the binary operator `token`, which binds tighter than `previousPrecedence`, and
        parses its right operand with the operator's precedence as the floor. */
    method ParseRightOperand(left: Expr, previousPrecedence: int, token: Token, info: BinaryOperatorInfo)
      returns (r: Result<Option<Expr>, Error>)
      requires Ready() && scanner.tokens[scanner.index] == Success(token)
      requires token.kind != NestedQueryOperator && TryGetBinaryOperatorInfo(token.kind) == Some(info)
      requires info.precedence > previousPrecedence
      modifies scanner
      ensures var expected := OperatorTurn(Source(), context, left, old(scanner.index), previousPrecedence);
        && r == TurnValue(expected)
        && (r.Success? && r.value.None? ==> unchanged(scanner))
        && (r.Success? && r.value.Some? ==> Ready() && scanner.index == expected.value.value.next)
      decreases |scanner.tokens| - scanner.index, 0
    {
      BinaryTurn(Source(), context, left, scanner.index, previousPrecedence, token, info);
      var popped := scanner.Pop();
      var right :- ParseExpression(info.precedence);
      return Success(Some(Binary(info.semantics, left, right)));
    }

    /** The nested query after the keyword `token`, with `left` as its source. */
    method ParseNestedQuery(token: Token, left: Expr) returns (r: Result<Expr, Error>)
      requires Ready()
      modifies scanner
      ensures var expected := ParseNested(Source(), context, left, token, old(scanner.index));
        r == ValueOf(expected) && (r.Success? ==> Ready() && scanner.index == expected.value.next)
      decreases |scanner.tokens| - scanner.index, 0
    {
      var open :- scanner.Require(BlockOpen);
      var leftType := StaticType(left);
      var elementType := ElementType(schema, leftType);
      if elementType.None? {
        return Failure(InvalidOperation(NotEnumerable(leftType)));
      }
      NestedAfterOpen(Source(), context, left, token, elementType.value, scanner.index - 1);
      r := ParseNestedFilter(token, left, elementType.value);
    }

    /** The filter, quantifier and `}` of a nested query, once `{` is popped. */
    method ParseNestedFilter(token: Token, left: Expr, elementType: TypeName) returns (r: Result<Expr, Error>)
      requires Ready()
      modifies scanner
      ensures var expected := NestedFilter(Source(), context, left, token, elementType, old(scanner.index));
        r == ValueOf(expected) && (r.Success? ==> Ready() && scanner.index == expected.value.next)
      decreases |scanner.tokens| - scanner.index, 3
    {
      var filterExpression :- CompileFilterExpression(schema, elementType, scanner, context.depth + 1);
      r := ParseNestedClose(token, left, filterExpression);
    }

    /** The quantifier and `}` of a nested query whose filter is parsed. */
    method ParseNestedClose(token: Token, left: Expr, filter: Lambda) returns (r: Result<Expr, Error>)
      requires Ready()
      modifies scanner
      ensures var expected := NestedClose(Source(), left, token, filter, old(scanner.index));
        r == ValueOf(expected) && (r.Success? ==> Ready() && scanner.index == expected.value.next)
    {
      var quantifier :- QuantifierOf(token.text);
      var close :- scanner.Require(BlockClose);
      return Success(NestedQuery(quantifier, left, filter));
    }

    /** The member the identifier `token` names, once it is popped. */
    method ParseMemberAccess(token: Token) returns (r: Result<Expr, Error>)
      requires Ready() && scanner.index > 0 && scanner.tokens[scanner.index - 1] == Success(token)
      requires token.kind == Identifier
      modifies scanner
      ensures var expected := PrimaryAt(Source(), context, old(scanner.index) - 1, token);
        r == ValueOf(expected) && (r.Success? ==> Ready() && scanner.index == expected.value.next)
    {
      var memberInfo :- GetMemberInfo(scanner.input, context, token);
      return Success(MemberAccess(context.inputParameter, memberInfo));
    }

    /** The constant the literal `token` stands for, once it is popped. */
    method ParseConstant(token: Token) returns (r: Result<Expr, Error>)
      requires Ready() && scanner.index > 0 && scanner.tokens[scanner.index - 1] == Success(token)
      requires token.kind == Literal
      modifies scanner
      ensures var expected := PrimaryAt(Source(), context, old(scanner.index) - 1, token);
        r == ValueOf(expected) && (r.Success? ==> Ready() && scanner.index == expected.value.next)
    {
      var c :- ConstantOf(token);
      return Success(ConstantValue(c));
    }

    /** The expression inside parentheses, once `(` is popped, and the closing `)`. */
    method ParseParenthesized(token: Token) returns (r: Result<Expr, Error>)
      requires Ready() && scanner.index > 0 && scanner.tokens[scanner.index - 1] == Success(token)
      requires token.kind == ParenthesisOpen
      modifies scanner
      ensures var expected := PrimaryAt(Source(), context, old(scanner.index) - 1, token);
        r == ValueOf(expected) && (r.Success? ==> Ready() && scanner.index == expected.value.next)
      decreases |scanner.tokens| - scanner.index, 2
    {
      var expression :- ParseExpression(LowestPrecedence);
      var close :- scanner.Require(ParenthesisClose);
      return Success(expression);
    }

    /** The operand of a unary operator `kind`, once the operator is popped. */
    method ParseUnary(token: Token) returns (r: Result<Expr, Error>)
      requires Ready() && scanner.index > 0 && scanner.tokens[scanner.index - 1] == Success(token)
      requires token.kind == Minus || token.kind == TokenKind.Not
      modifies scanner
      ensures var expected := PrimaryAt(Source(), context, old(scanner.index) - 1, token);
        r == ValueOf(expected) && (r.Success? ==> Ready() && scanner.index == expected.value.next)
      decreases |scanner.tokens| - scanner.index, 2
    {
      var operatorInfo := TryGetUnaryOperatorInfo(token.kind).value;
      var operand :- ParseExpression(LowestPrecedence);
      return Success(Unary(operatorInfo.expressionType, operand));
    }

    method ParsePrimaryExpression() returns (r: Result<Expr, Error>)
      requires Ready()
      modifies scanner
      ensures var expected := ParsePrimary(Source(), context, old(scanner.index));
        r == ValueOf(expected) && (r.Success? ==> Ready() && scanner.index == expected.value.next)
      decreases |scanner.tokens| - scanner.index, 0
    {
      var token :- scanner.Pop();
      if token.kind == Identifier {
        r := ParseMemberAccess(token);
        return;
      } else if token.kind == Literal {
        r := ParseConstant(token);
        return;
      } else if token.kind == ParenthesisOpen {
        r := ParseParenthesized(token);
        return;
      } else if token.kind == Minus || token.kind == TokenKind.Not {
        r := ParseUnary(token);
        return;
      }
      r := ParseInvalidToken(token);
    }

    /** A token no primary expression starts with. */
    method ParseInvalidToken(token: Token) returns (r: Result<Expr, Error>)
      requires scanner.Valid() && scanner.index > 0 && scanner.tokens[scanner.index - 1] == Success(token)
      requires token.kind !in {Identifier, Literal, ParenthesisOpen, Minus, TokenKind.Not}
      ensures r == ValueOf(PrimaryAt(Source(), context, scanner.index - 1, token)) && r.Failure?
    {
      var e := scanner.ThrowErrorAt(token, InvalidExpressionToken(token.kind));
      return Failure(e);
    }
  }

  /** `QueryCompiler.CompileFilterExpression(type, scanner, depth)`: a parser for the members
      of `type`, whose expression becomes the body of a lambda over `it{depth}`. */
  method CompileFilterExpression(schema: Schema, recordType: TypeName, scanner: Scanner, depth: nat)
    returns (r: Result<Lambda, Error>)
    requires scanner.Valid() && scanner.index < |scanner.tokens|
    modifies scanner
    ensures var expected := ParseFilter(Query(schema, scanner.input, scanner.tokens), recordType, depth, old(scanner.index));
      r == ValueOf(expected)
    ensures r.Success? ==> scanner.Valid() && scanner.index == ParseFilter(Query(schema, scanner.input, scanner.tokens), recordType, depth, old(scanner.index)).value.next
    decreases |scanner.tokens| - scanner.index, 2
  {
    var inputParameter := Parameter(depth, recordType);
    var parser := new Parser(scanner, ContextOf(schema, recordType, depth), schema);
    var filterExpression :- parser.ParseExpression(LowestPrecedence);
    var bodyType := StaticType(filterExpression);
    if bodyType != BooleanType {
      return Failure(NotPredicate(bodyType));
    }
    return Success(Lambda(inputParameter, filterExpression));
  }
}
