/** Tokens, literal values and the static operator tables of `Token.cs`. */
module Tokens {
  import opened Wrappers
  import opened Chars
  import opened Ast

  /** The token kinds the scanner produces. */
  datatype TokenKind =
    | Equal | NotEqual | LessThanOrEqual | LessThan | GreaterThanOrEqual | GreaterThan | And | Or
    | Minus | Not | BitNot | Identifier | NestedQueryOperator | Literal | IteratorVariable | Dot
    | ParenthesisOpen | ParenthesisClose | BlockOpen | BlockClose | Multiply | Divide | Plus
    | EndOfFile

  /** The payload of a literal token: four nullable, init-only variants. The double variant
      holds the lexeme that `double.Parse` converts. */
  datatype LiteralValue = LiteralValue(
    stringValue: Option<string>,
    intValue: Option<int32>,
    doubleValue: Option<string>,
    boolValue: Option<bool>)
  {
    /** Exactly one variant is populated. */
    predicate HasOneVariant() {
      (if stringValue.Some? then 1 else 0) + (if intValue.Some? then 1 else 0)
        + (if doubleValue.Some? then 1 else 0) + (if boolValue.Some? then 1 else 0) == 1
    }

    /** `OpaqueLiteralValue`: the first populated variant in the order string, int, double,
        bool; `None` stands for the `InvalidOperationException` thrown when none is set. */
    function Opaque(): (r: Option<Constant>)
      ensures r.None? <==> stringValue.None? && intValue.None? && doubleValue.None? && boolValue.None?
      ensures r.Some? && r.value.StringConstant? ==> stringValue == Some(r.value.stringValue)
      ensures r.Some? && r.value.IntConstant? ==> stringValue.None? && intValue == Some(r.value.intValue)
      ensures r.Some? && r.value.DoubleConstant? ==>
        stringValue.None? && intValue.None? && doubleValue == Some(r.value.lexeme)
      ensures r.Some? && r.value.BoolConstant? ==>
        stringValue.None? && intValue.None? && doubleValue.None? && boolValue == Some(r.value.boolValue)
    {
      if stringValue.Some? then Some(StringConstant(stringValue.value))
      else if intValue.Some? then Some(IntConstant(intValue.value))
      else if doubleValue.Some? then Some(DoubleConstant(doubleValue.value))
      else if boolValue.Some? then Some(BoolConstant(boolValue.value))
      else None
    }
  }

  /** The object initializer `new LiteralValue() { XValue = v }` that sets the variant of `c`. */
  function LiteralOf(c: Constant): (v: LiteralValue)
    ensures v.HasOneVariant()
  {
    match c
    case StringConstant(s) => LiteralValue(Some(s), None, None, None)
    case IntConstant(i) => LiteralValue(None, Some(i), None, None)
    case DoubleConstant(d) => LiteralValue(None, None, Some(d), None)
    case BoolConstant(b) => LiteralValue(None, None, None, Some(b))
  }

  /** Reading back a literal built by an initializer yields exactly the value put in, and a
      literal with one variant is the initializer of what it reads back. */
  lemma OpaqueOfLiteral(c: Constant, v: LiteralValue)
    ensures LiteralOf(c).Opaque() == Some(c)
    ensures v.HasOneVariant() ==> v.Opaque().Some? && LiteralOf(v.Opaque().value) == v
  {
  }

  /** The accessors `StringValue`, `IntValue`, `DoubleValue` and `BoolValue` read one variant
      each, `None` standing for the `InvalidOperationException` of an unset one: on a literal
      built by an initializer exactly the accessor of the constant's own variant succeeds, and
      it yields the value put in. */
  lemma LiteralAccessors(c: Constant)
    ensures var v := LiteralOf(c);
      && (v.stringValue.Some? <==> c.StringConstant?) && (c.StringConstant? ==> v.stringValue.value == c.stringValue)
      && (v.intValue.Some? <==> c.IntConstant?) && (c.IntConstant? ==> v.intValue.value == c.intValue)
      && (v.doubleValue.Some? <==> c.DoubleConstant?) && (c.DoubleConstant? ==> v.doubleValue.value == c.lexeme)
      && (v.boolValue.Some? <==> c.BoolConstant?) && (c.BoolConstant? ==> v.boolValue.value == c.boolValue)
  {
  }

  /** A token as the scanner builds it: start offset, kind, lexeme and optional literal. */
  datatype Token = Token(start: nat, kind: TokenKind, text: string, literal: Option<LiteralValue>)

  datatype BinaryOperatorInfo = BinaryOperatorInfo(
    operator: string,
    alternate: string,
    tokenKind: TokenKind,
    semantics: OperatorSemantics,
    precedence: int)

  datatype UnaryOperatorInfo = UnaryOperatorInfo(
    operator: char,
    tokenKind: TokenKind,
    expressionType: ExpressionType)

  /** The entries of the binary operator table, in table order. */
  const EqualOperator := BinaryOperatorInfo("==", "eq", TokenKind.Equal, Native(ExpressionType.Equal), 100)
  const NotEqualOperator := BinaryOperatorInfo("!=", "ne", TokenKind.NotEqual, Native(ExpressionType.NotEqual), 100)
  const LessThanOrEqualOperator := BinaryOperatorInfo("<=", "le", TokenKind.LessThanOrEqual, Native(ExpressionType.LessThanOrEqual), 90)
  const LessThanOperator := BinaryOperatorInfo("<", "lt", TokenKind.LessThan, Native(ExpressionType.LessThan), 90)
  const GreaterThanOrEqualOperator := BinaryOperatorInfo(">=", "ge", TokenKind.GreaterThanOrEqual, Native(ExpressionType.GreaterThanOrEqual), 90)
  const GreaterThanOperator := BinaryOperatorInfo(">", "gt", TokenKind.GreaterThan, Native(ExpressionType.GreaterThan), 90)
  const AndOperator := BinaryOperatorInfo("&&", "and", TokenKind.And, Native(ExpressionType.And), 80)
  const OrOperator := BinaryOperatorInfo("||", "or", TokenKind.Or, Native(ExpressionType.Or), 70)

  const BinaryOperators: seq<BinaryOperatorInfo> := [
    EqualOperator, NotEqualOperator, LessThanOrEqualOperator, LessThanOperator,
    GreaterThanOrEqualOperator, GreaterThanOperator, AndOperator, OrOperator
  ]

  /** The entries of the unary operator table, in table order. */
  const NegateOperator := UnaryOperatorInfo('-', TokenKind.Minus, ExpressionType.Negate)
  const NotOperator := UnaryOperatorInfo('!', TokenKind.Not, ExpressionType.Not)
  const BitNotOperator := UnaryOperatorInfo('~', TokenKind.BitNot, ExpressionType.Not)

  const UnaryOperators: seq<UnaryOperatorInfo> := [NegateOperator, NotOperator, BitNotOperator]

  const NestedQueryOperators: seq<string> := ["any", "all"]

  /** The index of the first entry, from `i` on, of a binary operator table with the given
      token kind: the search of `FirstOrDefault(x => x.TokenKind == kind)`. */
  function FirstBinaryOperator(table: seq<BinaryOperatorInfo>, kind: TokenKind, i: nat): (r: Option<nat>)
    requires i <= |table|
    ensures r.Some? ==> i <= r.value < |table| && table[r.value].tokenKind == kind
    ensures r.Some? ==> forall j :: i <= j < r.value ==> table[j].tokenKind != kind
    ensures r.None? ==> forall j :: i <= j < |table| ==> table[j].tokenKind != kind
    decreases |table| - i
  {
    if i == |table| then None
    else if table[i].tokenKind == kind then Some(i)
    else FirstBinaryOperator(table, kind, i + 1)
  }

  /** `FirstOrDefault(x => x.TokenKind == kind)` over a unary operator table. */
  function FirstUnaryOperator(table: seq<UnaryOperatorInfo>, kind: TokenKind): (r: Option<UnaryOperatorInfo>)
    ensures r.Some? ==> r.value in table && r.value.tokenKind == kind
    ensures r.None? <==> forall i :: 0 <= i < |table| ==> table[i].tokenKind != kind
  {
    if table == [] then None
    else if table[0].tokenKind == kind then Some(table[0])
    else FirstUnaryOperator(table[1..], kind)
  }

  /** The entry of the binary operator table for a token kind, looked up by kind; the lemma
      `BinaryOperatorLookup` shows it is the entry `FirstOrDefault` finds. */
  function TryGetBinaryOperatorInfo(kind: TokenKind): (r: Option<BinaryOperatorInfo>)
    ensures r.Some? ==> r.value.tokenKind == kind
  {
    match kind
    case Equal => Some(EqualOperator)
    case NotEqual => Some(NotEqualOperator)
    case LessThanOrEqual => Some(LessThanOrEqualOperator)
    case LessThan => Some(LessThanOperator)
    case GreaterThanOrEqual => Some(GreaterThanOrEqualOperator)
    case GreaterThan => Some(GreaterThanOperator)
    case And => Some(AndOperator)
    case Or => Some(OrOperator)
    case _ => None
  }

  /** `TryGetBinaryOperatorInfo` is `BinaryOperators.FirstOrDefault(x => x.TokenKind == kind)`:
      the first table entry with that kind, or none. */
  lemma BinaryOperatorLookup(kind: TokenKind)
    ensures TryGetBinaryOperatorInfo(kind)
      == match FirstBinaryOperator(BinaryOperators, kind, 0)
         case Some(i) => Some(BinaryOperators[i])
         case None => None
  {
    match kind
    case Equal => FirstOfEntry(0);
    case NotEqual => FirstOfEntry(1);
    case LessThanOrEqual => FirstOfEntry(2);
    case LessThan => FirstOfEntry(3);
    case GreaterThanOrEqual => FirstOfEntry(4);
    case GreaterThan => FirstOfEntry(5);
    case And => FirstOfEntry(6);
    case Or => FirstOfEntry(7);
    case _ => NoEntry(kind);
  }

  lemma NoEntry(kind: TokenKind)
    requires !IsBinaryOperatorKind(kind)
    ensures FirstBinaryOperator(BinaryOperators, kind, 0) == None
  {
  }

  /** The search for the kind of an entry stops at that entry: no kind occurs twice. */
  lemma FirstOfEntry(i: nat)
    requires i < |BinaryOperators|
    ensures FirstBinaryOperator(BinaryOperators, BinaryOperators[i].tokenKind, 0) == Some(i)
  {
    var ops := BinaryOperators;
    forall j | 0 <= j < i ensures ops[j].tokenKind != ops[i].tokenKind { }
    var r := FirstBinaryOperator(ops, ops[i].tokenKind, 0);
    assert r.Some? && r.value <= i;
  }

  predicate IsBinaryOperatorKind(kind: TokenKind) {
    kind in {TokenKind.Equal, TokenKind.NotEqual, TokenKind.LessThanOrEqual, TokenKind.LessThan,
             TokenKind.GreaterThanOrEqual, TokenKind.GreaterThan, TokenKind.And, TokenKind.Or}
  }

  /** The entry of the unary operator table for a token kind, looked up by kind; the lemma
      `UnaryOperatorLookup` shows it is the entry `FirstOrDefault` finds. */
  function TryGetUnaryOperatorInfo(kind: TokenKind): (r: Option<UnaryOperatorInfo>)
    ensures r.Some? <==> kind in {TokenKind.Minus, TokenKind.Not, TokenKind.BitNot}
    ensures r.Some? ==> r.value.tokenKind == kind
  {
    match kind
    case Minus => Some(NegateOperator)
    case Not => Some(NotOperator)
    case BitNot => Some(BitNotOperator)
    case _ => None
  }

  /** `TryGetUnaryOperatorInfo` is `UnaryOperators.FirstOrDefault(x => x.TokenKind == kind)`. */
  lemma UnaryOperatorLookup(kind: TokenKind)
    ensures TryGetUnaryOperatorInfo(kind) == FirstUnaryOperator(UnaryOperators, kind)
  {
    var ops := UnaryOperators;
    assert ops[1..][1..] == [ops[2]] && ops[1..] == [ops[1], ops[2]];
  }

  /** `NestedQueryOperators.Any(x => x.Equals(word, StringComparison.OrdinalIgnoreCase))`. */
  predicate IsNestedQueryOperator(word: string) {
    exists i :: 0 <= i < |NestedQueryOperators| && EqualsIgnoreCase(NestedQueryOperators[i], word)
  }

  /** The binding strengths of the binary operators: equality binds tightest, then the
      relational operators, then `&&`, then `||`. */
  lemma BinaryPrecedences()
    ensures TryGetBinaryOperatorInfo(TokenKind.Equal).Some? && TryGetBinaryOperatorInfo(TokenKind.Equal).value.precedence == 100
    ensures TryGetBinaryOperatorInfo(TokenKind.NotEqual).Some? && TryGetBinaryOperatorInfo(TokenKind.NotEqual).value.precedence == 100
    ensures TryGetBinaryOperatorInfo(TokenKind.LessThanOrEqual).Some? && TryGetBinaryOperatorInfo(TokenKind.LessThanOrEqual).value.precedence == 90
    ensures TryGetBinaryOperatorInfo(TokenKind.LessThan).Some? && TryGetBinaryOperatorInfo(TokenKind.LessThan).value.precedence == 90
    ensures TryGetBinaryOperatorInfo(TokenKind.GreaterThanOrEqual).Some? && TryGetBinaryOperatorInfo(TokenKind.GreaterThanOrEqual).value.precedence == 90
    ensures TryGetBinaryOperatorInfo(TokenKind.GreaterThan).Some? && TryGetBinaryOperatorInfo(TokenKind.GreaterThan).value.precedence == 90
    ensures TryGetBinaryOperatorInfo(TokenKind.And).Some? && TryGetBinaryOperatorInfo(TokenKind.And).value.precedence == 80
    ensures TryGetBinaryOperatorInfo(TokenKind.Or).Some? && TryGetBinaryOperatorInfo(TokenKind.Or).value.precedence == 70
  {
    BinaryLookup(0); BinaryLookup(1); BinaryLookup(2); BinaryLookup(3);
    BinaryLookup(4); BinaryLookup(5); BinaryLookup(6); BinaryLookup(7);
  }

  /** Each token kind occurs once in the binary table, so looking up the kind of an entry
      returns that entry. */
  lemma BinaryLookup(i: nat)
    requires i < |BinaryOperators|
    ensures TryGetBinaryOperatorInfo(BinaryOperators[i].tokenKind) == Some(BinaryOperators[i])
  {
  }

  /** Exactly the eight comparison and logical token kinds are binary operators. */
  lemma BinaryOperatorKinds(kind: TokenKind)
    ensures TryGetBinaryOperatorInfo(kind).Some? <==> IsBinaryOperatorKind(kind)
  {
  }

  /** Every binary operator binds tighter than the lowest precedence a parse starts from. */
  lemma BinaryPrecedencesPositive(info: BinaryOperatorInfo)
    requires info in BinaryOperators
    ensures 70 <= info.precedence <= 100
    ensures info.semantics.Native? && info.operator != [] && '\0' !in info.operator
  {
  }

  /** The unary table: `-` negates, `!` and `~` both map to `Not`. */
  lemma UnaryTable()
    ensures TryGetUnaryOperatorInfo(TokenKind.Minus) == Some(UnaryOperatorInfo('-', TokenKind.Minus, ExpressionType.Negate))
    ensures TryGetUnaryOperatorInfo(TokenKind.Not) == Some(UnaryOperatorInfo('!', TokenKind.Not, ExpressionType.Not))
    ensures TryGetUnaryOperatorInfo(TokenKind.BitNot) == Some(UnaryOperatorInfo('~', TokenKind.BitNot, ExpressionType.Not))
  {
  }

  /** No lexeme of the binary table is a prefix of a lexeme after it: trying the entries in
      order never lets a shorter operator shadow a longer one. */
  lemma NoOperatorShadowed()
    ensures forall i, j :: 0 <= i < j < |BinaryOperators| ==>
      !IsPrefix(BinaryOperators[i].operator, BinaryOperators[j].operator)
  {
    forall i, j | 0 <= i < j < |BinaryOperators|
      ensures !IsPrefix(BinaryOperators[i].operator, BinaryOperators[j].operator)
    {
      var a, b := BinaryOperators[i].operator, BinaryOperators[j].operator;
      assert a[0] != b[0] || (|a| == 2 && |b| == 1) || (|a| == 2 && |b| == 2 && a[1] != b[1]);
    }
  }

  predicate IsPrefix(a: string, b: string) {
    |a| <= |b| && forall k :: 0 <= k < |a| ==> a[k] == b[k]
  }

  /** The nested-query keywords are `any` and `all`, in any letter case. */
  lemma NestedQueryKeywords(word: string)
    ensures IsNestedQueryOperator(word) <==> EqualsIgnoreCase("any", word) || EqualsIgnoreCase("all", word)
  {
    assert NestedQueryOperators[0] == "any" && NestedQueryOperators[1] == "all";
  }
}
