/** What the parse functions of `Parsing` guarantee: member resolution by exact name or unique
    case-insensitive prefix, the floor test that ends the operator loop, left grouping of
    operators that do not bind tighter, and the tree shapes of the parser tests. */
module ParsingProperties {
  import opened Wrappers
  import opened Chars
  import opened Ast
  import opened Tokens
  import opened Diagnostics
  import opened Scanning
  import opened Parsing

  // ------------------------------------------------------------------------------------
  // Member resolution.

  lemma StartsWithItself(s: string)
    ensures StartsWithIgnoreCase(s, s)
  {
    assert s[..|s|] == s;
  }

  /** The error `GetMemberInfo` raises at `token` with the given message. */
  function MemberError(s: string, token: Token, message: Message): Result<Member, Error>
    requires token.start + |token.text| <= |s|
  {
    Failure(ErrorAt(s, token.start, token.start + |token.text|, message))
  }

  /** An exact name wins; otherwise the member is the one candidate whose name starts with the
      token's text, ignoring case; no candidate is "not found" and several are "ambiguous",
      listing the candidates' names in enumeration order. */
  lemma {:induction false} MemberResolution(s: string, context: ParserContext, token: Token)
    requires token.start + |token.text| <= |s|
    ensures (exists m :: m in context.members && m.name == token.text) ==>
      GetMemberInfo(s, context, token).Success? && GetMemberInfo(s, context, token).value.name == token.text
    ensures var r := GetMemberInfo(s, context, token);
      r.Success? ==> r.value in context.members && StartsWithIgnoreCase(r.value.name, token.text)
    ensures var r := GetMemberInfo(s, context, token);
      r.Success? && r.value.name != token.text ==> Candidates(context.members, token.text) == [r.value]
    ensures GetMemberInfo(s, context, token) == MemberError(s, token, MemberNotFound(token.text))
      <==> forall m :: m in context.members ==> !StartsWithIgnoreCase(m.name, token.text)
    ensures GetMemberInfo(s, context, token)
        == MemberError(s, token, Ambiguous(token.text, Names(Candidates(context.members, token.text))))
      <==> (forall m :: m in context.members ==> m.name != token.text)
           && |Candidates(context.members, token.text)| > 1
  {
    var candidates := Candidates(context.members, token.text);
    match FindMember(context.members, token.text)
    case Some(m) =>
      StartsWithItself(m.name);
      assert m in candidates;
    case None =>
      if |candidates| > 0 {
        assert candidates[0] in candidates;
      }
  }

  // ------------------------------------------------------------------------------------
  // The floor test of the operator loop.

  /** The token at which the loop of `ParseExpression(floor)` returns `left`: neither a nested
      query keyword nor a binary operator binding tighter than `floor`. */
  predicate Stops(t: Result<Token, Error>, floor: int) {
    && t.Success?
    && t.value.kind != NestedQueryOperator
    && (TryGetBinaryOperatorInfo(t.value.kind).None? || TryGetBinaryOperatorInfo(t.value.kind).value.precedence <= floor)
  }

  /** A turn returns `left` exactly at a token that stops the loop. */
  lemma TurnStopsExactly(q: Query, context: ParserContext, left: Expr, i: nat, floor: int)
    requires StreamShape(q.input, q.tokens) && i < |q.tokens|
    ensures OperatorTurn(q, context, left, i, floor) == Success(None) <==> Stops(q.tokens[i], floor)
  {
    if q.tokens[i].Success? && q.tokens[i].value.kind == NestedQueryOperator {
      NestedTurn(q, context, left, i, floor, q.tokens[i].value);
    }
  }

  /** At a token that stops the loop, the parse so far is the result and nothing is consumed. */
  lemma OperatorsReturnLeft(q: Query, context: ParserContext, left: Expr, i: nat, floor: int)
    requires StreamShape(q.input, q.tokens) && i < |q.tokens| && Stops(q.tokens[i], floor)
    ensures ParseOperators(q, context, left, i, floor) == Success(Parsed(left, i))
  {
    TurnStopsExactly(q, context, left, i, floor);
  }

  /** The loop only ever returns at a token that stops it: a binary operator is consumed only
      when it binds strictly tighter than the floor, and the one that does not stays unconsumed. */
  lemma {:induction false} OperatorsStop(q: Query, context: ParserContext, left: Expr, i: nat, floor: int)
    requires StreamShape(q.input, q.tokens) && i < |q.tokens|
    ensures var r := ParseOperators(q, context, left, i, floor);
      r.Success? ==> Stops(q.tokens[r.value.next], floor)
    decreases |q.tokens| - i
  {
    TurnStopsExactly(q, context, left, i, floor);
    match OperatorTurn(q, context, left, i, floor)
    case Failure(_) =>
    case Success(None) =>
    case Success(Some(p)) =>
      OperatorsStop(q, context, p.value, p.next, floor);
  }

  /** `ParseExpression(floor)` ends at a token that stops the loop at that floor. */
  lemma ExprStops(q: Query, context: ParserContext, i: nat, floor: int)
    requires StreamShape(q.input, q.tokens) && i < |q.tokens|
    ensures var r := ParseExpr(q, context, i, floor);
      r.Success? ==> Stops(q.tokens[r.value.next], floor)
  {
    var primary := ParsePrimary(q, context, i);
    if primary.Success? {
      OperatorsStop(q, context, primary.value.value, primary.value.next, floor);
    }
  }

  /** A turn at an operator binding tighter than the floor, whose right operand parses, makes
      the binary node of the two operands. */
  lemma TurnOfOperand(q: Query, context: ParserContext, left: Expr, i: nat, floor: int, op: Token, info: BinaryOperatorInfo, b: Parsed<Expr>)
    requires StreamShape(q.input, q.tokens) && i + 1 < |q.tokens| && q.tokens[i] == Success(op)
    requires op.kind != NestedQueryOperator && TryGetBinaryOperatorInfo(op.kind) == Some(info)
    requires info.precedence > floor && ParseExpr(q, context, i + 1, info.precedence) == Success(b)
    ensures OperatorTurn(q, context, left, i, floor) == Success(Some(Parsed(Binary(info.semantics, left, b.value), b.next)))
  {
    BinaryTurn(q, context, left, i, floor, op, info);
  }

  /** Left grouping: after `a op b`, where `op` binds tighter than the floor, an operator that
      does not bind tighter than `op` ends the right operand, so `a op b` becomes the left
      operand of what follows. Equal precedences thus group to the left. */
  lemma LeftGrouping(q: Query, context: ParserContext, i: nat, floor: int, a: Parsed<Expr>, op: Token, info: BinaryOperatorInfo, b: Parsed<Expr>)
    requires StreamShape(q.input, q.tokens) && i < |q.tokens|
    requires ParsePrimary(q, context, i) == Success(a)
    requires q.tokens[a.next] == Success(op) && op.kind != NestedQueryOperator
    requires TryGetBinaryOperatorInfo(op.kind) == Some(info) && info.precedence > floor
    requires a.next + 1 < |q.tokens| && ParsePrimary(q, context, a.next + 1) == Success(b)
    requires Stops(q.tokens[b.next], info.precedence)
    ensures ParseExpr(q, context, i, floor)
      == ParseOperators(q, context, Binary(info.semantics, a.value, b.value), b.next, floor)
  {
    OperandGrouping(q, context, a.value, a.next, floor, op, info, b);
  }

  lemma OperandGrouping(q: Query, context: ParserContext, left: Expr, i: nat, floor: int, op: Token, info: BinaryOperatorInfo, b: Parsed<Expr>)
    requires StreamShape(q.input, q.tokens) && i + 1 < |q.tokens| && q.tokens[i] == Success(op)
    requires op.kind != NestedQueryOperator && TryGetBinaryOperatorInfo(op.kind) == Some(info)
    requires info.precedence > floor && ParsePrimary(q, context, i + 1) == Success(b)
    requires Stops(q.tokens[b.next], info.precedence)
    ensures ParseOperators(q, context, left, i, floor)
      == ParseOperators(q, context, Binary(info.semantics, left, b.value), b.next, floor)
  {
    OperatorsReturnLeft(q, context, b.value, b.next, info.precedence);
    TurnOfOperand(q, context, left, i, floor, op, info, b);
  }

  /** The shape of `a op1 b op2 d` between tokens that stop the loop: grouped to the left
      when `op2` does not bind tighter than `op1`, to the right when it does. */
  predicate TwoOperatorQuery(q: Query, context: ParserContext, i: nat, floor: int, a: Parsed<Expr>, op1: Token, b: Parsed<Expr>, op2: Token, d: Parsed<Expr>)
    requires StreamShape(q.input, q.tokens) && i < |q.tokens|
  {
    && ParsePrimary(q, context, i) == Success(a)
    && q.tokens[a.next] == Success(op1) && op1.kind != NestedQueryOperator
    && TryGetBinaryOperatorInfo(op1.kind).Some? && TryGetBinaryOperatorInfo(op1.kind).value.precedence > floor
    && a.next + 1 < |q.tokens| && ParsePrimary(q, context, a.next + 1) == Success(b)
    && q.tokens[b.next] == Success(op2) && op2.kind != NestedQueryOperator
    && TryGetBinaryOperatorInfo(op2.kind).Some? && TryGetBinaryOperatorInfo(op2.kind).value.precedence > floor
    && b.next + 1 < |q.tokens| && ParsePrimary(q, context, b.next + 1) == Success(d)
    && Stops(q.tokens[d.next], floor)
    && Stops(q.tokens[d.next], TryGetBinaryOperatorInfo(op1.kind).value.precedence)
    && Stops(q.tokens[d.next], TryGetBinaryOperatorInfo(op2.kind).value.precedence)
  }

  /** Precedence climbing over two operators: `(a op1 b) op2 d` unless `op2` binds tighter
      than `op1`, then `a op1 (b op2 d)`. */
  lemma TwoOperators(q: Query, context: ParserContext, i: nat, floor: int, a: Parsed<Expr>, op1: Token, b: Parsed<Expr>, op2: Token, d: Parsed<Expr>)
    requires StreamShape(q.input, q.tokens) && i < |q.tokens|
    requires TwoOperatorQuery(q, context, i, floor, a, op1, b, op2, d)
    ensures var info1, info2 := TryGetBinaryOperatorInfo(op1.kind).value, TryGetBinaryOperatorInfo(op2.kind).value;
      ParseExpr(q, context, i, floor) == Success(Parsed(
        if info2.precedence <= info1.precedence
        then Binary(info2.semantics, Binary(info1.semantics, a.value, b.value), d.value)
        else Binary(info1.semantics, a.value, Binary(info2.semantics, b.value, d.value)),
        d.next))
  {
    var info1, info2 := TryGetBinaryOperatorInfo(op1.kind).value, TryGetBinaryOperatorInfo(op2.kind).value;
    if info2.precedence <= info1.precedence {
      LeftGrouping(q, context, i, floor, a, op1, info1, b);
      TwoOperatorsLeft(q, context, i, floor, a, op1, info1, b, op2, info2, d);
    } else {
      RightOperandOfTwo(q, context, a.next + 1, info1.precedence, b, op2, info2, d);
      TwoOperatorsRight(q, context, i, floor, a, op1, info1, b, op2, info2, d);
    }
  }

  /** The second operator does not bind tighter: once `a op1 b` is the left operand, `op2`
      takes `d` and the loop stops. */
  lemma TwoOperatorsLeft(q: Query, context: ParserContext, i: nat, floor: int, a: Parsed<Expr>, op1: Token, info1: BinaryOperatorInfo, b: Parsed<Expr>, op2: Token, info2: BinaryOperatorInfo, d: Parsed<Expr>)
    requires StreamShape(q.input, q.tokens) && i < |q.tokens|
    requires TwoOperatorQuery(q, context, i, floor, a, op1, b, op2, d)
    requires TryGetBinaryOperatorInfo(op1.kind) == Some(info1) && TryGetBinaryOperatorInfo(op2.kind) == Some(info2)
    requires info2.precedence <= info1.precedence
    requires ParseExpr(q, context, i, floor) == ParseOperators(q, context, Binary(info1.semantics, a.value, b.value), b.next, floor)
    ensures ParseExpr(q, context, i, floor)
      == Success(Parsed(Binary(info2.semantics, Binary(info1.semantics, a.value, b.value), d.value), d.next))
  {
    var ab := Binary(info1.semantics, a.value, b.value);
    FinalOperand(q, context, ab, b.next, floor, op2, info2, d);
  }

  /** An operator whose operand is followed by a token that stops both it and the loop is the
      last one the loop applies. */
  lemma FinalOperand(q: Query, context: ParserContext, left: Expr, i: nat, floor: int, op: Token, info: BinaryOperatorInfo, b: Parsed<Expr>)
    requires StreamShape(q.input, q.tokens) && i + 1 < |q.tokens| && q.tokens[i] == Success(op)
    requires op.kind != NestedQueryOperator && TryGetBinaryOperatorInfo(op.kind) == Some(info)
    requires info.precedence > floor && ParsePrimary(q, context, i + 1) == Success(b)
    requires Stops(q.tokens[b.next], info.precedence) && Stops(q.tokens[b.next], floor)
    ensures ParseOperators(q, context, left, i, floor) == Success(Parsed(Binary(info.semantics, left, b.value), b.next))
  {
    OperandGrouping(q, context, left, i, floor, op, info, b);
    OperatorsReturnLeft(q, context, Binary(info.semantics, left, b.value), b.next, floor);
  }

  /** The second operator binds tighter: `b op2 d` is the right operand of `op1`. */
  lemma TwoOperatorsRight(q: Query, context: ParserContext, i: nat, floor: int, a: Parsed<Expr>, op1: Token, info1: BinaryOperatorInfo, b: Parsed<Expr>, op2: Token, info2: BinaryOperatorInfo, d: Parsed<Expr>)
    requires StreamShape(q.input, q.tokens) && i < |q.tokens|
    requires TwoOperatorQuery(q, context, i, floor, a, op1, b, op2, d)
    requires TryGetBinaryOperatorInfo(op1.kind) == Some(info1) && TryGetBinaryOperatorInfo(op2.kind) == Some(info2)
    requires info1.precedence < info2.precedence
    requires ParseExpr(q, context, a.next + 1, info1.precedence) == Success(Parsed(Binary(info2.semantics, b.value, d.value), d.next))
    ensures ParseExpr(q, context, i, floor)
      == Success(Parsed(Binary(info1.semantics, a.value, Binary(info2.semantics, b.value, d.value)), d.next))
  {
    var bd := Binary(info2.semantics, b.value, d.value);
    OperandOf(q, context, a.value, a.next, floor, op1, info1, Parsed(bd, d.next));
  }

  /** `b op2 d` as the right operand of an operator binding less tightly than `op2`. */
  lemma RightOperandOfTwo(q: Query, context: ParserContext, i: nat, floor: int, b: Parsed<Expr>, op2: Token, info2: BinaryOperatorInfo, d: Parsed<Expr>)
    requires StreamShape(q.input, q.tokens) && i < |q.tokens|
    requires ParsePrimary(q, context, i) == Success(b)
    requires q.tokens[b.next] == Success(op2) && op2.kind != NestedQueryOperator
    requires TryGetBinaryOperatorInfo(op2.kind) == Some(info2) && info2.precedence > floor
    requires b.next + 1 < |q.tokens| && ParsePrimary(q, context, b.next + 1) == Success(d)
    requires Stops(q.tokens[d.next], info2.precedence) && Stops(q.tokens[d.next], floor)
    ensures ParseExpr(q, context, i, floor) == Success(Parsed(Binary(info2.semantics, b.value, d.value), d.next))
  {
    LeftGrouping(q, context, i, floor, b, op2, info2, d);
    OperatorsReturnLeft(q, context, Binary(info2.semantics, b.value, d.value), d.next, floor);
  }

  /** `left op right`, where `right` is parsed at the precedence of `op`, ends where `right`
      ends when the token there stops the loop. */
  lemma OperandOf(q: Query, context: ParserContext, left: Expr, i: nat, floor: int, op: Token, info: BinaryOperatorInfo, right: Parsed<Expr>)
    requires StreamShape(q.input, q.tokens) && i + 1 < |q.tokens| && q.tokens[i] == Success(op)
    requires op.kind != NestedQueryOperator && TryGetBinaryOperatorInfo(op.kind) == Some(info)
    requires info.precedence > floor && ParseExpr(q, context, i + 1, info.precedence) == Success(right)
    requires Stops(q.tokens[right.next], floor)
    ensures ParseOperators(q, context, left, i, floor) == Success(Parsed(Binary(info.semantics, left, right.value), right.next))
  {
    TurnOfOperand(q, context, left, i, floor, op, info, right);
    OperatorsReturnLeft(q, context, Binary(info.semantics, left, right.value), right.next, floor);
  }

  /** The right operand of an operator extends over every operator that binds tighter. */
  lemma RightOperand(q: Query, context: ParserContext, left: Expr, i: nat, floor: int, op: Token, info: BinaryOperatorInfo)
    requires StreamShape(q.input, q.tokens) && i < |q.tokens| && q.tokens[i] == Success(op)
    requires op.kind != NestedQueryOperator && TryGetBinaryOperatorInfo(op.kind) == Some(info)
    requires info.precedence > floor
    ensures i + 1 < |q.tokens|
    ensures var right := ParseExpr(q, context, i + 1, info.precedence);
      right.Success? ==>
        && ParseOperators(q, context, left, i, floor)
           == ParseOperators(q, context, Binary(info.semantics, left, right.value.value), right.value.next, floor)
        && Stops(q.tokens[right.value.next], info.precedence)
  {
    BinaryTurn(q, context, left, i, floor, op, info);
    ExprStops(q, context, i + 1, info.precedence);
  }

  // ------------------------------------------------------------------------------------
  // Primary expressions.

  /** An identifier resolves to a member accessed through the context's parameter. */
  lemma PrimaryMember(q: Query, context: ParserContext, i: nat, token: Token, m: Member)
    requires StreamShape(q.input, q.tokens) && i < |q.tokens| && q.tokens[i] == Success(token)
    requires token.kind == Identifier && GetMemberInfo(q.input, context, token) == Success(m)
    ensures ParsePrimary(q, context, i) == Success(Parsed(MemberAccess(context.inputParameter, m), i + 1))
  {
  }

  /** A literal is the constant it carries. */
  lemma PrimaryConstant(q: Query, context: ParserContext, i: nat, token: Token, c: Constant)
    requires StreamShape(q.input, q.tokens) && i < |q.tokens| && q.tokens[i] == Success(token)
    requires token.kind == Literal && token.literal == Some(LiteralOf(c))
    ensures ParsePrimary(q, context, i) == Success(Parsed(ConstantValue(c), i + 1))
  {
    OpaqueOfLiteral(c, LiteralOf(c));
  }

  /** A unary operator applies to the whole expression after it, parsed from the lowest
      precedence: its operand extends over every binary operator that follows. */
  lemma PrimaryUnary(q: Query, context: ParserContext, i: nat, token: Token)
    requires StreamShape(q.input, q.tokens) && i < |q.tokens| && q.tokens[i] == Success(token)
    requires token.kind == Minus || token.kind == TokenKind.Not
    ensures i + 1 < |q.tokens|
    ensures ParsePrimary(q, context, i)
      == match ParseExpr(q, context, i + 1, LowestPrecedence)
         case Failure(e) => Failure(e)
         case Success(operand) =>
           Success(Parsed(Unary(TryGetUnaryOperatorInfo(token.kind).value.expressionType, operand.value), operand.next))
  {
  }

  /** A parenthesis holds a whole expression parsed from the lowest precedence, and must be
      closed right after it. */
  lemma PrimaryParenthesized(q: Query, context: ParserContext, i: nat, token: Token)
    requires StreamShape(q.input, q.tokens) && i < |q.tokens| && q.tokens[i] == Success(token)
    requires token.kind == ParenthesisOpen
    ensures i + 1 < |q.tokens|
    ensures var inner := ParseExpr(q, context, i + 1, LowestPrecedence);
      inner.Success? ==>
        ParsePrimary(q, context, i)
        == match Required(q.input, q.tokens, inner.value.next, ParenthesisClose)
           case Failure(e) => Failure(e)
           case Success(_) => Success(Parsed(inner.value.value, inner.value.next + 1))
  {
  }

  /** Only identifiers, literals, `(`, `-` and `!` start a primary expression; any other token
      is an error at that token. */
  lemma PrimaryInvalid(q: Query, context: ParserContext, i: nat, token: Token)
    requires StreamShape(q.input, q.tokens) && i < |q.tokens| && q.tokens[i] == Success(token)
    requires token.kind !in {Identifier, Literal, ParenthesisOpen, Minus, TokenKind.Not}
    ensures ParsePrimary(q, context, i)
      == Failure(ErrorAt(q.input, token.start, token.start + |token.text|, InvalidExpressionToken(token.kind)))
  {
  }

  // ------------------------------------------------------------------------------------
  // Nested queries.

  lemma UpperToLower(c: char, lower: char)
    requires 'a' <= lower <= 'z' && ToUpper(c) == ToUpper(lower)
    ensures ToLower(c) == lower
  {
  }

  lemma LowerOfKeyword(word: string, keyword: string)
    requires EqualsIgnoreCase(keyword, word)
    requires forall k :: 0 <= k < |keyword| ==> 'a' <= keyword[k] <= 'z'
    ensures ToLowerString(word) == keyword
  {
    forall k | 0 <= k < |word|
      ensures ToLowerString(word)[k] == keyword[k]
    {
      UpperToLower(word[k], keyword[k]);
    }
  }

  /** Every word the scanner makes a nested query keyword names a quantifier, `Any` exactly
      when it is `any` ignoring case; the error for an unknown keyword is never raised. */
  lemma KeywordQuantifier(word: string)
    requires IsNestedQueryOperator(word)
    ensures QuantifierOf(word).Success?
    ensures QuantifierOf(word) == Success(Any) <==> EqualsIgnoreCase("any", word)
  {
    NestedQueryKeywords(word);
    if EqualsIgnoreCase("any", word) {
      LowerOfKeyword(word, "any");
    } else {
      LowerOfKeyword(word, "all");
    }
  }

  /** The filter parsed from `i`: a body of type `bool` makes the lambda over `it{depth}` with
      that body, ending where the body ends; a body of any other type fails with that type. */
  lemma FilterBody(q: Query, recordType: TypeName, depth: nat, i: nat, body: Parsed<Expr>)
    requires StreamShape(q.input, q.tokens) && i < |q.tokens|
    requires ParseExpr(q, ContextOf(q.schema, recordType, depth), i, LowestPrecedence) == Success(body)
    ensures StaticType(body.value) == BooleanType ==>
      ParseFilter(q, recordType, depth, i) == Success(Parsed(Lambda(Parameter(depth, recordType), body.value), body.next))
    ensures StaticType(body.value) != BooleanType ==>
      ParseFilter(q, recordType, depth, i) == Failure(NotPredicate(StaticType(body.value)))
  {
  }

  /** The nested query `left kw { e }`: after the keyword `kw` and `{`, an operand whose
      elements have type `elementType`, and a filter `e` parsed one level deeper that is a `bool`
      and is closed by `}`, the turn makes `Any` or `All` (as `kw` says) of `left` and the
      lambda over `it{depth + 1}` with body `e`, and the loop goes on after the `}`. */
  lemma NestedQueryTurn(q: Query, context: ParserContext, left: Expr, i: nat, floor: int, token: Token,
                        elementType: TypeName, body: Parsed<Expr>)
    requires StreamShape(q.input, q.tokens) && i + 2 < |q.tokens|
    requires q.tokens[i] == Success(token) && token.kind == NestedQueryOperator && IsNestedQueryOperator(token.text)
    requires q.tokens[i + 1].Success? && q.tokens[i + 1].value.kind == BlockOpen
    requires ElementType(q.schema, StaticType(left)) == Some(elementType)
    requires ParseExpr(q, ContextOf(q.schema, elementType, context.depth + 1), i + 2, LowestPrecedence) == Success(body)
    requires StaticType(body.value) == BooleanType
    requires q.tokens[body.next].Success? && q.tokens[body.next].value.kind == BlockClose
    ensures body.next + 1 < |q.tokens|
    ensures var quantifier := if EqualsIgnoreCase("any", token.text) then Any else All;
      var nested := NestedQuery(quantifier, left, Lambda(Parameter(context.depth + 1, elementType), body.value));
      && OperatorTurn(q, context, left, i, floor) == Success(Some(Parsed(nested, body.next + 1)))
      && ParseOperators(q, context, left, i, floor) == ParseOperators(q, context, nested, body.next + 1, floor)
  {
    NestedTurn(q, context, left, i, floor, token);
    NestedAfterOpen(q, context, left, token, elementType, i + 1);
    FilterBody(q, elementType, context.depth + 1, i + 2, body);
    KeywordQuantifier(token.text);
  }

  /** As written, the same well-formed nested query fails once its `}` is read: the filter
      parses and `NestedClose` builds the quantifier node, but `NestedCloseAsWritten` has no
      `Enumerable` method to call. */
  lemma NestedQueryAsWritten(q: Query, context: ParserContext, left: Expr, i: nat, token: Token,
                             elementType: TypeName, body: Parsed<Expr>)
    requires StreamShape(q.input, q.tokens) && i + 2 < |q.tokens|
    requires q.tokens[i] == Success(token) && token.kind == NestedQueryOperator && IsNestedQueryOperator(token.text)
    requires q.tokens[i + 1].Success? && q.tokens[i + 1].value.kind == BlockOpen
    requires ElementType(q.schema, StaticType(left)) == Some(elementType)
    requires ParseExpr(q, ContextOf(q.schema, elementType, context.depth + 1), i + 2, LowestPrecedence) == Success(body)
    requires StaticType(body.value) == BooleanType
    requires q.tokens[body.next].Success? && q.tokens[body.next].value.kind == BlockClose
    ensures var quantifier := if EqualsIgnoreCase("any", token.text) then Any else All;
      var filter := Lambda(Parameter(context.depth + 1, elementType), body.value);
      && ParseFilter(q, elementType, context.depth + 1, i + 2) == Success(Parsed(filter, body.next))
      && NestedClose(q, left, token, filter, body.next) == Success(Parsed(NestedQuery(quantifier, left, filter), body.next + 1))
      && NestedCloseAsWritten(q, left, token, filter, body.next) == Failure(MissingQuantifierMethod(quantifier))
  {
    FilterBody(q, elementType, context.depth + 1, i + 2, body);
    KeywordQuantifier(token.text);
  }

  /** A nested query over an operand that is not a sequence fails, once `{` follows the keyword,
      with the operand's type. */
  lemma NestedNotEnumerable(q: Query, context: ParserContext, left: Expr, i: nat, floor: int, token: Token)
    requires StreamShape(q.input, q.tokens) && i + 1 < |q.tokens|
    requires q.tokens[i] == Success(token) && token.kind == NestedQueryOperator
    requires q.tokens[i + 1].Success? && q.tokens[i + 1].value.kind == BlockOpen
    requires ElementType(q.schema, StaticType(left)).None?
    ensures OperatorTurn(q, context, left, i, floor) == Failure(InvalidOperation(NotEnumerable(StaticType(left))))
  {
    NestedTurn(q, context, left, i, floor, token);
  }

  /** A nested query keyword must be followed by `{`: any other token fails there. */
  lemma NestedWithoutOpen(q: Query, context: ParserContext, left: Expr, i: nat, floor: int, token: Token)
    requires StreamShape(q.input, q.tokens) && i + 1 < |q.tokens|
    requires q.tokens[i] == Success(token) && token.kind == NestedQueryOperator
    requires q.tokens[i + 1].Success? && q.tokens[i + 1].value.kind != BlockOpen
    ensures var t := q.tokens[i + 1].value;
      OperatorTurn(q, context, left, i, floor) == Failure(ErrorAt(q.input, t.start, t.start + |t.text|, Expected(BlockOpen)))
  {
    NestedTurn(q, context, left, i, floor, token);
  }

  /** A nested query's filter must be followed by `}`: any other token fails there. */
  lemma NestedWithoutClose(q: Query, context: ParserContext, left: Expr, i: nat, floor: int, token: Token,
                           elementType: TypeName, body: Parsed<Expr>)
    requires StreamShape(q.input, q.tokens) && i + 2 < |q.tokens|
    requires q.tokens[i] == Success(token) && token.kind == NestedQueryOperator && IsNestedQueryOperator(token.text)
    requires q.tokens[i + 1].Success? && q.tokens[i + 1].value.kind == BlockOpen
    requires ElementType(q.schema, StaticType(left)) == Some(elementType)
    requires ParseExpr(q, ContextOf(q.schema, elementType, context.depth + 1), i + 2, LowestPrecedence) == Success(body)
    requires StaticType(body.value) == BooleanType
    requires q.tokens[body.next].Success? && q.tokens[body.next].value.kind != BlockClose
    ensures var t := q.tokens[body.next].value;
      OperatorTurn(q, context, left, i, floor) == Failure(ErrorAt(q.input, t.start, t.start + |t.text|, Expected(BlockClose)))
  {
    NestedTurn(q, context, left, i, floor, token);
    NestedUnclosed(q, context, left, i + 1, token, elementType, body);
  }

  /** The rest of a nested query whose filter is followed by a token other than `}` fails there. */
  lemma NestedUnclosed(q: Query, context: ParserContext, left: Expr, i: nat, token: Token,
                       elementType: TypeName, body: Parsed<Expr>)
    requires StreamShape(q.input, q.tokens) && i + 1 < |q.tokens| && IsNestedQueryOperator(token.text)
    requires q.tokens[i].Success? && q.tokens[i].value.kind == BlockOpen
    requires ElementType(q.schema, StaticType(left)) == Some(elementType)
    requires ParseExpr(q, ContextOf(q.schema, elementType, context.depth + 1), i + 1, LowestPrecedence) == Success(body)
    requires StaticType(body.value) == BooleanType
    requires q.tokens[body.next].Success? && q.tokens[body.next].value.kind != BlockClose
    ensures var t := q.tokens[body.next].value;
      ParseNested(q, context, left, token, i) == Failure(ErrorAt(q.input, t.start, t.start + |t.text|, Expected(BlockClose)))
  {
    NestedAfterOpen(q, context, left, token, elementType, i);
    FilterUnclosed(q, context, left, i + 1, token, elementType, body);
  }

  /** A nested query's `bool` filter followed by a token other than `}` fails there. */
  lemma FilterUnclosed(q: Query, context: ParserContext, left: Expr, i: nat, token: Token,
                       elementType: TypeName, body: Parsed<Expr>)
    requires StreamShape(q.input, q.tokens) && i < |q.tokens| && IsNestedQueryOperator(token.text)
    requires ParseExpr(q, ContextOf(q.schema, elementType, context.depth + 1), i, LowestPrecedence) == Success(body)
    requires StaticType(body.value) == BooleanType
    requires q.tokens[body.next].Success? && q.tokens[body.next].value.kind != BlockClose
    ensures var t := q.tokens[body.next].value;
      NestedFilter(q, context, left, token, elementType, i)
        == Failure(ErrorAt(q.input, t.start, t.start + |t.text|, Expected(BlockClose)))
  {
    FilterBody(q, elementType, context.depth + 1, i, body);
    var filter := Lambda(Parameter(context.depth + 1, elementType), body.value);
    NestedFilterCloses(q, context, left, token, elementType, i, Parsed(filter, body.next));
    UnclosedFilter(q, left, token, filter, body.next);
  }

  /** Once the filter of a nested query is parsed, what remains is its close. */
  lemma NestedFilterCloses(q: Query, context: ParserContext, left: Expr, token: Token, elementType: TypeName,
                           i: nat, filter: Parsed<Lambda>)
    requires StreamShape(q.input, q.tokens) && i < |q.tokens|
    requires ParseFilter(q, elementType, context.depth + 1, i) == Success(filter)
    ensures filter.next < |q.tokens|
    ensures NestedFilter(q, context, left, token, elementType, i) == NestedClose(q, left, token, filter.value, filter.next)
  {
  }


  /** After a nested query's filter, a token other than `}` fails there. */
  lemma UnclosedFilter(q: Query, left: Expr, token: Token, filter: Lambda, i: nat)
    requires StreamShape(q.input, q.tokens) && i < |q.tokens| && IsNestedQueryOperator(token.text)
    requires q.tokens[i].Success? && q.tokens[i].value.kind != BlockClose
    ensures var t := q.tokens[i].value;
      NestedClose(q, left, token, filter, i) == Failure(ErrorAt(q.input, t.start, t.start + |t.text|, Expected(BlockClose)))
  {
    KeywordQuantifier(token.text);
  }
}
