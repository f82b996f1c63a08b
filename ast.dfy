/** The expression trees the parser builds, standing for the `System.Linq.Expressions` nodes of the
    C# implementation, and the schema standing for .NET reflection over the queried record type. */
module Ast {
  import opened Wrappers

  /** The `ExpressionType` node kinds the operator tables name. */
  datatype ExpressionType =
    | Equal | NotEqual | LessThanOrEqual | LessThan | GreaterThanOrEqual | GreaterThan
    | And | Or | Negate | Not

  /** How a binary operator is built: a native node (`Expression.MakeBinary`) or a call of a
      named static function (`Expression.Call`). */
  datatype OperatorSemantics = Native(expressionType: ExpressionType) | Call(functionName: string)

  /** The boxed value `Expression.Constant` receives. A double is kept as the lexeme
      `double.Parse` reads, not as a binary64 value. */
  datatype Constant =
    | StringConstant(stringValue: string)
    | IntConstant(intValue: int32)
    | DoubleConstant(lexeme: string)
    | BoolConstant(boolValue: bool)

  newtype int32 = x: int | -0x8000_0000 <= x < 0x8000_0000

  const Int32MaxValue: int := 0x7FFF_FFFF
  const Int32MinValue: int := -0x8000_0000

  /** A type is known by its full name, as `Type.ToString()` prints it. */
  type TypeName = string

  const StringType: TypeName := "System.String"
  const Int32Type: TypeName := "System.Int32"
  const DoubleType: TypeName := "System.Double"
  const BooleanType: TypeName := "System.Boolean"

  /** A field or property of a record type. */
  datatype Member = Member(name: string, memberType: TypeName)

  /** What reflection reveals of a type: its members in enumeration order and, when it
      implements `IEnumerable<T>`, its element type `T`. */
  datatype TypeInfo = TypeInfo(members: seq<Member>, element: Option<TypeName>)

  type Schema = map<TypeName, TypeInfo>

  function MembersOf(schema: Schema, t: TypeName): seq<Member> {
    if t in schema then schema[t].members else []
  }

  function ElementType(schema: Schema, t: TypeName): Option<TypeName> {
    if t in schema then schema[t].element else None
  }

  /** The lambda parameter `it{depth}` of the filter at nesting depth `depth`. */
  datatype Parameter = Parameter(depth: nat, parameterType: TypeName)

  /** The `Enumerable` method a nested query calls. */
  datatype Quantifier = Any | All

  datatype Expr =
    | MemberAccess(instance: Parameter, member: Member)
    | ConstantValue(value: Constant)
    | Unary(op: ExpressionType, operand: Expr)
    | Binary(semantics: OperatorSemantics, left: Expr, right: Expr)
    | NestedQuery(quantifier: Quantifier, source: Expr, filter: Lambda)

  datatype Lambda = Lambda(parameter: Parameter, body: Expr)

  predicate IsComparison(t: ExpressionType) {
    t in {Equal, NotEqual, LessThanOrEqual, LessThan, GreaterThanOrEqual, GreaterThan}
  }

  /** The static type `Expression.Type` of a node. Comparisons, calls and quantifiers are
      boolean; the other operators keep the type of their (first) operand. */
  function StaticType(e: Expr): TypeName {
    match e
    case MemberAccess(_, m) => m.memberType
    case ConstantValue(c) =>
      (match c
       case StringConstant(_) => StringType
       case IntConstant(_) => Int32Type
       case DoubleConstant(_) => DoubleType
       case BoolConstant(_) => BooleanType)
    case Unary(_, operand) => StaticType(operand)
    case Binary(Native(t), left, _) => if IsComparison(t) then BooleanType else StaticType(left)
    case Binary(Call(_), _, _) => BooleanType
    case NestedQuery(_, _, _) => BooleanType
  }
}
