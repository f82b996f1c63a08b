/** The entry point of `QueryCompiler.cs`: a query is scanned, parsed as the filter over the
    record type at depth 0, and must then be at its end. */
module QueryCompilation {
  import opened Wrappers
  import opened Ast
  import opened Tokens
  import opened Diagnostics
  import opened Scanning
  import opened Parsing

  /** The query the parser reads for `query` typed against `recordType`'s schema. */
  function QueryOf(schema: Schema, query: string): (q: Query)
    ensures StreamShape(q.input, q.tokens)
  {
    var s := RemoveCarriageReturns(query);
    StreamIsStream(s, 0);
    Query(schema, s, Stream(s, 0))
  }

  /** `CompileFilterExpression<T>(query)`: the filter at depth 0, after which the next token
      must be the end of input. */
  function CompiledQuery(schema: Schema, recordType: TypeName, query: string): Result<Lambda, Error> {
    Compiled(QueryOf(schema, query), recordType)
  }

  /** The filter over `recordType` parsed from the start of `q`, followed by the end of input. */
  function Compiled(q: Query, recordType: TypeName): Result<Lambda, Error>
    requires StreamShape(q.input, q.tokens)
  {
    var filter :- ParseFilter(q, recordType, 0, 0);
    var _ :- Required(q.input, q.tokens, filter.next, EndOfFile);
    Success(filter.value)
  }

  /** A failed parse is reported as it is. */
  lemma CompileParseFailure(q: Query, recordType: TypeName)
    requires StreamShape(q.input, q.tokens)
    ensures var filter := ParseFilter(q, recordType, 0, 0);
      filter.Failure? ==> Compiled(q, recordType) == Failure(filter.error)
  {
  }

  /** A parsed filter compiles exactly when the end of input follows it, and is then the
      compiled lambda, over `it0` of the record type. */
  lemma CompileAtEnd(q: Query, recordType: TypeName)
    requires StreamShape(q.input, q.tokens)
    ensures var filter := ParseFilter(q, recordType, 0, 0);
      filter.Success? ==>
        && (Compiled(q, recordType).Success?
            <==> q.tokens[filter.value.next].Success? && q.tokens[filter.value.next].value.kind == EndOfFile)
        && (Compiled(q, recordType).Success? ==> Compiled(q, recordType).value == filter.value.value)
    ensures Compiled(q, recordType).Success? ==> Compiled(q, recordType).value.parameter == Parameter(0, recordType)
  {
  }

  /** A compiled query consumed its whole stream: the filter ends at the last result. */
  lemma CompiledWholeStream(q: Query, recordType: TypeName)
    requires StreamShape(q.input, q.tokens)
    ensures var filter := ParseFilter(q, recordType, 0, 0);
      Compiled(q, recordType).Success? ==> filter.Success? && filter.value.next == |q.tokens| - 1
  {
    var filter := ParseFilter(q, recordType, 0, 0);
    if Compiled(q, recordType).Success? {
      var n := filter.value.next;
      assert q.tokens[n].Success? && q.tokens[n].value.kind == EndOfFile;
    }
  }

  /** A filter followed by anything but the end of input fails at that token. */
  lemma CompileTrailingToken(q: Query, recordType: TypeName)
    requires StreamShape(q.input, q.tokens)
    ensures var filter := ParseFilter(q, recordType, 0, 0);
      filter.Success? && q.tokens[filter.value.next].Success? && q.tokens[filter.value.next].value.kind != EndOfFile ==>
        var t := q.tokens[filter.value.next].value;
        Compiled(q, recordType) == Failure(ErrorAt(q.input, t.start, t.start + |t.text|, Expected(EndOfFile)))
  {
  }

  /** `CompileFilterExpression<T>(query)`: a scanner over the query, the filter over the record
      type parsed from it, then `EnsureEofReached`. */
  method CompileFilterExpression(schema: Schema, recordType: TypeName, query: string) returns (r: Result<Lambda, Error>)
    ensures r == CompiledQuery(schema, recordType, query)
  {
    var scanner := new Scanner(query);
    var result :- Parsing.CompileFilterExpression(schema, recordType, scanner, 0);
    var eof := scanner.EnsureEofReached();
    if eof.Fail? {
      return Failure(eof.error);
    }
    return Success(result);
  }
}
