# Bundlor query compiler, modelled in Dafny

What is modelled is the core of `Bundlor.QueryCompiler`. It turns a filter query such as
`a && b || number > 3` into an expression tree over a record type. The core has four parts:

- **The scanner** (`Scanner.cs`) turns the query text into tokens one `Pop` at a time. It
  produces identifiers, nested-query keywords, literals, operators and punctuation. On failure
  it raises a compilation error carrying an excerpt of the input around the error with a
  `^^^` marker.
- **The token tables** (`Token.cs`) give each binary and unary operator its token kind,
  precedence and expression node.
- **The parser** (`Parser.cs`) is a precedence-climbing expression parser. It resolves member
  names, allowing unambiguous case-insensitive prefixes, and parses nested `any`/`all` queries
  as lambdas one level deeper.
- **The entry point** (`QueryCompiler.cs`) scans and parses a query, requires a filter body of
  type `bool`, then requires the end of the input.

The glob matcher `Like` from `SpecialBinaryOperatorFunctions.cs` is modelled alongside.

Module layout, one module per file:

| file | module | models |
|---|---|---|
| `wrappers.dfy` | `Wrappers` | `Option`, `Result`, `Outcome` |
| `chars.dfy` | `Chars` | .NET `char.IsWhiteSpace`/`IsLetter`/`IsNumber`/`ToUpperInvariant`/`ToLowerInvariant` on U+0000..U+00FF |
| `ast.dfy` | `Ast` | the expression nodes, constants, and the schema that stands for reflection |
| `tokens.dfy` | `Tokens` | `Token.cs`: token kinds, literal values, the operator tables and their lookups |
| `diagnostics.dfy` | `Diagnostics` | the exceptions and the error excerpt of `ThrowError` (corrected and as written) |
| `scanner.dfy` | `Scanning` | `Lex`/`Stream`, which say what each `Pop` yields, and the class `Scanner`, whose methods are proved to pop that stream |
| `scanner_properties.dfy` | `ScanningProperties` | per-token-class facts about the scanner and the scanner unit tests |
| `parser.dfy` | `Parsing` | `ParseExpr`/`ParsePrimary`/`ParseFilter`, which say what parsing yields, and the class `Parser`, whose methods are proved to follow them |
| `parsing_properties.dfy` | `ParsingProperties` | member resolution, where a parse stops, grouping of operators, primary expressions |
| `parser_examples.dfy` | `ParserExamples` | the parser unit tests as lemmas over their token streams |
| `compiler.dfy` | `QueryCompilation` | `CompileFilterExpression<T>` |
| `compiler_examples.dfy` | `CompilerExamples` | the nested-query compiler test, and a query whose body is no `bool` |
| `like.dfy` | `GlobMatching` | `Like` over a two-dimensional `bool` array, against an independent glob definition |

The imperative parts mirror the source's object structure:
- `Scanner` is a class with the cursor fields `pos`, `tokenStart` and `eofReached`.
- Its ghost field `tokens` is the stream `Stream(input, 0)` of everything `Pop` returns. The
  ghost `index` counts how much of that stream has been popped.
- Every popping method is proved to return `tokens[index]` and to advance `index`.
- `Parser` is a class over a `Scanner`. Every parsing method is proved to return what the
  corresponding function says about the stream, and to leave the scanner right after what it
  consumed.

Where the code and its tests disagree, the model follows the code, with one exception. As
written, every `any`/`all` nested query fails once its `}` is read (Parser.cs:46-53; see
"Findings"). There the model builds the quantifier node the tests expect, and states the
as-written failure beside it (`Parsing.NestedCloseAsWritten`). The other places are listed
under "Left out".

## Model

| member | source | states |
|---|---|---|
| Chars.ToUpper | Bundlor.QueryCompiler/Scanner.cs:143 | non-letters are unchanged; a letter maps to a letter, or to U+0178/U+039C, the two upper cases outside Latin-1 |
| Chars.ToLower | Bundlor.QueryCompiler/Parser.cs:44 | non-letters are unchanged; letters map to letters |
| Chars.ToLowerString | Bundlor.QueryCompiler/Parser.cs:44 | `ToLower` character by character, same length |
| Chars.IsWhiteSpace | Bundlor.QueryCompiler/Scanner.cs:129 | `char.IsWhiteSpace` on U+0000..U+00FF: tab to carriage return, space, U+0085 and U+00A0 |
| Chars.IsLetter | Bundlor.QueryCompiler/Scanner.cs:135-138 | `char.IsLetter` on U+0000..U+00FF: the ASCII and Latin-1 letters, with `ª`, `µ` and `º` |
| Chars.IsNumber | Bundlor.QueryCompiler/Scanner.cs:164-212 | `char.IsNumber` on U+0000..U+00FF: the digits, the superscripts `²`, `³`, `¹` and the vulgar fractions |
| Chars.EqualsIgnoreCase | Bundlor.QueryCompiler/Scanner.cs:143 | ordinal equality after upper-casing both sides, as `StringComparison.OrdinalIgnoreCase` compares |
| Chars.StartsWithIgnoreCase | Bundlor.QueryCompiler/Parser.cs:117 | the text's length in leading characters of the name equal the text ignoring case |
| Chars.LowerLetterCase | Bundlor.QueryCompiler/Parser.cs:44 | a character lowers to a lower-case ASCII letter exactly when it equals that letter ignoring case |
| Chars.LowerCaseMatch | Bundlor.QueryCompiler/Parser.cs:44 | `ToLower()` of a word is a lower-case keyword exactly when the word equals it ignoring case |
| Chars.EqualsIgnoreCaseIsPrefix | Bundlor.QueryCompiler/Parser.cs:117 | a case-insensitively equal name is also a case-insensitive prefix |
| Tokens.Opaque | Bundlor.QueryCompiler/Token.cs:79-89 | `None` exactly when no variant is set; otherwise the first set variant, in the order string, int, double, bool |
| Tokens.LiteralOf | Bundlor.QueryCompiler/Token.cs:51-77 | the literal value the scanner builds for a constant has exactly one variant set |
| Tokens.OpaqueOfLiteral | Bundlor.QueryCompiler/Token.cs:51-89 | `Opaque` and `LiteralOf` are inverse on one-variant literal values |
| Tokens.LiteralAccessors | Bundlor.QueryCompiler/Token.cs:51-77 | on a literal built by an initializer, exactly the accessor of the constant's own variant succeeds, with the value put in; the others are unset and would throw |
| Tokens.IsNestedQueryOperator | Bundlor.QueryCompiler/Scanner.cs:143 | a word is a keyword when it equals an entry of the keyword table ignoring case |
| Tokens.FirstBinaryOperator | Bundlor.QueryCompiler/Token.cs:108-109 | the first table index with that token kind, or none when no entry has it |
| Tokens.FirstUnaryOperator | Bundlor.QueryCompiler/Token.cs:118-119 | the first table entry with that token kind; none exactly when there is none |
| Tokens.TryGetBinaryOperatorInfo | Bundlor.QueryCompiler/Token.cs:108-109 | a returned entry has the requested token kind |
| Tokens.BinaryOperatorLookup | Bundlor.QueryCompiler/Token.cs:108-109 | the lookup equals the `FirstOrDefault` search of the table |
| Tokens.NoEntry | Bundlor.QueryCompiler/Token.cs:96-109 | kinds outside the table are not found |
| Tokens.FirstOfEntry | Bundlor.QueryCompiler/Token.cs:96-109 | every entry is the first with its token kind |
| Tokens.TryGetUnaryOperatorInfo | Bundlor.QueryCompiler/Token.cs:118-119 | found exactly for `-`, `!` and `~`, with the requested kind |
| Tokens.UnaryOperatorLookup | Bundlor.QueryCompiler/Token.cs:111-119 | the lookup equals the `FirstOrDefault` search of the table |
| Tokens.BinaryPrecedences | Bundlor.QueryCompiler/Token.cs:98-105 | `==`/`!=` bind at 100, the orderings at 90, `&&` at 80, `\|\|` at 70 |
| Tokens.BinaryLookup | Bundlor.QueryCompiler/Token.cs:96-109 | looking up an entry's kind returns that entry |
| Tokens.BinaryOperatorKinds | Bundlor.QueryCompiler/Token.cs:96-109 | a token kind is a binary operator exactly when it is one of the eight table kinds |
| Tokens.BinaryPrecedencesPositive | Bundlor.QueryCompiler/Token.cs:96-106 | every entry has precedence in 70..100, native semantics and a non-empty operator without `\0` |
| Tokens.UnaryTable | Bundlor.QueryCompiler/Token.cs:111-116 | the three unary entries: `-` Negate, `!` Not, `~` Not |
| Tokens.NoOperatorShadowed | Bundlor.QueryCompiler/Token.cs:98-105 | no operator is a prefix of a later one, so first match in table order never hides a longer operator |
| Tokens.NestedQueryKeywords | Bundlor.QueryCompiler/Token.cs:122 | a word is a nested-query keyword exactly when it equals `any` or `all` ignoring case |
| Ast.MembersOf | Bundlor.QueryCompiler/Parser.cs:11 | the `Members` dictionary of a record type: the members reflection lists for it, in order, and none for a type it does not know |
| Ast.ElementType | Bundlor.QueryCompiler/Parser.cs:37-40 | the `T` of the `IEnumerable<T>` a type implements; `None` where it implements none, the case that throws `InvalidOperationException` |
| Ast.StaticType | Bundlor.QueryCompiler/Parser.cs:37 | `Expression.Type` of a node: a member access has the member's type, a constant its literal's type, comparisons, calls and nested queries are `bool`, other operators keep their operand's type; it decides both `NotPredicate` and `NotEnumerable` |
| Diagnostics.ExcerptOf | Bundlor.QueryCompiler/Scanner.cs:86-110 | `(empty input)` for the empty input; otherwise a marker as wide as the span at a column of at most 23, with a cut on either side exactly when more than 20 characters of the line lie beyond the span |
| Diagnostics.Repeat | Bundlor.QueryCompiler/Scanner.cs:110 | `n` copies of the character |
| Diagnostics.Line | Bundlor.QueryCompiler/Scanner.cs:97-106 | the excerpt line is the shown text, with the three-character `...` before it when cut on the left and after it when cut on the right |
| Diagnostics.Marker | Bundlor.QueryCompiler/Scanner.cs:110 | `column` spaces followed by `width` carets, and nothing else |
| Diagnostics.LineStart | Bundlor.QueryCompiler/Scanner.cs:86-89 | the start of the line at or before the position |
| Diagnostics.LineEnd | Bundlor.QueryCompiler/Scanner.cs:93-95 | the end of the line at or after the position, within the input |
| Diagnostics.EnclosingLine | Bundlor.QueryCompiler/Scanner.cs:86-95 | `LineStart`/`LineEnd` are a line break or the input's edge, with no line break between them and the position |
| Diagnostics.EnclosingLineStart | Bundlor.QueryCompiler/Scanner.cs:86-89 | the part of `EnclosingLine` about the start |
| Diagnostics.LineShows | Bundlor.QueryCompiler/Scanner.cs:99-110 | where the shown text sits inside the rendered line with its ellipses |
| Diagnostics.ExcerptMarksSpan | Bundlor.QueryCompiler/Scanner.cs:91-110 | the marker is as wide as the span and sits under exactly the span's characters; the line is at most 20 characters of context on each side plus ellipses |
| Diagnostics.ExcerptWithinBound | Bundlor.QueryCompiler/Scanner.cs:99-106 | the rendered line is at most the span plus `ContextWidth` characters and `...` on each side |
| Diagnostics.ExcerptStartsAtLineStart | Bundlor.QueryCompiler/Scanner.cs:86-106 | with 20 or fewer characters before the span on its line, the excerpt shows the whole start of the line |
| Diagnostics.LineStartAsWritten | Bundlor.QueryCompiler/Scanner.cs:86-89 | the line start search exactly as written (`lineStart > 1`) |
| Diagnostics.ExcerptAsWritten | Bundlor.QueryCompiler/Scanner.cs:70-123 | the excerpt exactly as written: `(empty input)` for an empty input, marker width equal to the span |
| Diagnostics.LineStartAsWrittenOnOneLine | Bundlor.QueryCompiler/Scanner.cs:88-89 | as written, the line start on a one-line input is 1, not 0 |
| Diagnostics.ExcerptAsWrittenDropsFirstCharacter | Bundlor.QueryCompiler/Scanner.cs:88 | as written, an error at `'` in `a'` shows `'`; the corrected excerpt shows `a'` |
| Diagnostics.ExcerptAsWrittenUnbounded | Bundlor.QueryCompiler/Scanner.cs:99-106 | as written, an error in a long line yields an excerpt that grows with the line, beyond the corrected bound |
| Scanning.RemoveCarriageReturns | Bundlor.QueryCompiler/Scanner.cs:19 | no `\r` is left; every other character keeps its count; a text without `\r` is unchanged; one character is kept exactly when it is not `\r` |
| Scanning.RemoveCarriageReturnsConcat | Bundlor.QueryCompiler/Scanner.cs:19 | removing `\r` commutes with concatenation; with the one-character case this makes the result the input's other characters in their order |
| Scanning.RemoveCarriageReturnsFirst | Bundlor.QueryCompiler/Scanner.cs:19 | the first character is dropped exactly when it is `\r`, and the rest is removed from in the same way |
| Scanning.At | Bundlor.QueryCompiler/Scanner.cs:35 | the indexer reads `\0` exactly past the end of the input or at a `\0` in it |
| Scanning.IsWordStart | Bundlor.QueryCompiler/Scanner.cs:135 | a word starts with a letter, `_` or `@` |
| Scanning.MakeToken | Bundlor.QueryCompiler/Scanner.cs:312-313 | the token starts at the current token start, with the given kind, text and literal value |
| Scanning.ErrorAt | Bundlor.QueryCompiler/Scanner.cs:70-123 | the compilation error at `start` carries the message, and its marker is as wide as the span |
| Scanning.TryPopped | Bundlor.QueryCompiler/Scanner.cs:46-52 | an error result is passed on; the token is taken exactly when it has the kind |
| Scanning.SkipWhitespace | Bundlor.QueryCompiler/Scanner.cs:129-130 | the cursor moves forward onto a non-whitespace character or the end |
| Scanning.SkippedWhitespace | Bundlor.QueryCompiler/Scanner.cs:129-130 | everything skipped is whitespace |
| Scanning.SpanEnd | Bundlor.QueryCompiler/Scanner.cs:138 | the end of a run of one character class stops on a character outside it |
| Scanning.SpanIsClass | Bundlor.QueryCompiler/Scanner.cs:138 | every character of the run is in the class |
| Scanning.DigitsValue | Bundlor.QueryCompiler/Scanner.cs:198 | the decimal value of `n` digits is below 10^n, and at least 10^(n-1) without a leading zero |
| Scanning.Power10 | Bundlor.QueryCompiler/Scanner.cs:198 | powers of ten are positive |
| Scanning.ParseInt | Bundlor.QueryCompiler/Scanner.cs:198 | `int.Parse`: succeeds exactly on ASCII digits whose value fits `Int32.MaxValue`, with that value; otherwise `OverflowException` for digits, `FormatException` for anything else |
| Scanning.ParseDouble | Bundlor.QueryCompiler/Scanner.cs:178 | `double.Parse` of the lexeme succeeds exactly on digits and dots, keeping the lexeme |
| Scanning.OperatorWithinInput | Bundlor.QueryCompiler/Scanner.cs:243-248 | an operator matched against the `\0`-padded input lies within the input |
| Scanning.MatchOperator | Bundlor.QueryCompiler/Scanner.cs:241-256 | the first table entry, from `i` on, that matches at the cursor; none exactly when no entry matches |
| Scanning.DoubleLiteral | Bundlor.QueryCompiler/Scanner.cs:177-180 | a well-shaped literal token over exactly the lexeme |
| Scanning.IntLiteral | Bundlor.QueryCompiler/Scanner.cs:197-200 | a well-shaped literal token over exactly the lexeme |
| Scanning.LexWord | Bundlor.QueryCompiler/Scanner.cs:135-152 | a well-shaped token starting at the cursor |
| Scanning.LexNumber | Bundlor.QueryCompiler/Scanner.cs:164-202 | a well-shaped token starting at the cursor |
| Scanning.LexDot | Bundlor.QueryCompiler/Scanner.cs:206-219 | a well-shaped token starting at the cursor |
| Scanning.LexString | Bundlor.QueryCompiler/Scanner.cs:222-238 | a well-shaped token starting at the cursor |
| Scanning.LexSymbol | Bundlor.QueryCompiler/Scanner.cs:241-256 | a well-shaped token starting at the cursor |
| Scanning.Punctuation | Bundlor.QueryCompiler/Scanner.cs:258-273 | a well-shaped token starting at the cursor; the end-of-file token only at `\0` |
| Scanning.Lex | Bundlor.QueryCompiler/Scanner.cs:125-276 | the token `Pop` returns starts after the skipped whitespace; its text is exactly the input it covers; only the end-of-file token is empty; only literals carry one value |
| Scanning.LexAt | Bundlor.QueryCompiler/Scanner.cs:134-273 | the dispatch on the first character yields a well-shaped token |
| Scanning.LexIteratorVariable | Bundlor.QueryCompiler/Scanner.cs:154-161 | a well-shaped token starting at the cursor |
| Scanning.Stream | Bundlor.QueryCompiler/Scanner.cs:125-276 | the results of successive pops, never empty |
| Scanning.ConsStream | Bundlor.QueryCompiler/Scanner.cs:125-276 | a successful pop followed by a stream is a stream |
| Scanning.StreamIsStream | Bundlor.QueryCompiler/Scanner.cs:125-276 | every result is the `Lex` at the cursor the previous one left; all but the last are non-end-of-file tokens; the stream stops at end of file or the first error; every token lies within the input |
| Scanning.Required | Bundlor.QueryCompiler/Scanner.cs:54-61 | a successful `Require` returns the next result, and it has the required kind |
| Scanning.Scanner.constructor | Bundlor.QueryCompiler/Scanner.cs:19 | the input is the query without `\r`, the cursor is at 0, nothing is popped, and the stream is `Stream(input, 0)` |
| Scanning.Scanner.Current | Bundlor.QueryCompiler/Scanner.cs:36 | the character at the cursor is `\0` exactly past the end of the input or at a `\0` in it |
| Scanning.Scanner.Cut | Bundlor.QueryCompiler/Scanner.cs:38 | the substring from the token start to the cursor: its length and every character |
| Scanning.Scanner.Copy | Bundlor.QueryCompiler/Scanner.cs:20-27 | the copy has the same input, cursor, token start and end-of-file flag |
| Scanning.Scanner.NextIsLex | Bundlor.QueryCompiler/Scanner.cs:125-276 | the next stream result is `Lex` at the current cursor |
| Scanning.Scanner.ThrowError | Bundlor.QueryCompiler/Scanner.cs:70-123 | the error at `start` with the corrected excerpt of the span, computed by the two line-search loops |
| Scanning.Scanner.CutLine | Bundlor.QueryCompiler/Scanner.cs:91-110 | the cut of the enclosing line equals the specified excerpt |
| Scanning.Scanner.ThrowErrorAt | Bundlor.QueryCompiler/Scanner.cs:66-67 | the error over the token's span |
| Scanning.Scanner.Scan | Bundlor.QueryCompiler/Scanner.cs:125-276 | the whitespace loop and the dispatch together return `Lex` at the old cursor and move the cursor to its end |
| Scanning.Scanner.PopToken | Bundlor.QueryCompiler/Scanner.cs:134-273 | returns `LexAt` of the cursor and moves to its end |
| Scanning.Scanner.PopWord | Bundlor.QueryCompiler/Scanner.cs:135-152 | the word loop returns `LexWord` and moves to its end |
| Scanning.Scanner.PopIteratorVariable | Bundlor.QueryCompiler/Scanner.cs:154-161 | returns `LexIteratorVariable` and moves to its end |
| Scanning.Scanner.SkipWhile | Bundlor.QueryCompiler/Scanner.cs:138 | the cursor stops at the end of the run |
| Scanning.Scanner.PopNumber | Bundlor.QueryCompiler/Scanner.cs:164-202 | returns `LexNumber` and moves to its end |
| Scanning.Scanner.CutInt | Bundlor.QueryCompiler/Scanner.cs:197-200 | the integer literal over the cut |
| Scanning.Scanner.PopDot | Bundlor.QueryCompiler/Scanner.cs:206-219 | returns `LexDot` and moves to its end |
| Scanning.Scanner.CutDouble | Bundlor.QueryCompiler/Scanner.cs:177-180 | the double literal over the cut |
| Scanning.Scanner.PopString | Bundlor.QueryCompiler/Scanner.cs:222-238 | returns `LexString` and moves to its end |
| Scanning.Scanner.PopSymbol | Bundlor.QueryCompiler/Scanner.cs:241-256 | the loop over the operator table returns `LexSymbol` and moves to its end |
| Scanning.Scanner.MatchesAt | Bundlor.QueryCompiler/Scanner.cs:243-248 | matches exactly when every operator character equals the padded input at the cursor |
| Scanning.Scanner.PopPunctuation | Bundlor.QueryCompiler/Scanner.cs:258-273 | returns `Punctuation` and moves to its end, setting the end-of-file flag at `\0` |
| Scanning.Scanner.Pop | Bundlor.QueryCompiler/Scanner.cs:125-276 | returns the next stream result; on success the stream advances by one |
| Scanning.Scanner.Peek | Bundlor.QueryCompiler/Scanner.cs:40-44 | returns the next stream result and changes nothing |
| Scanning.Scanner.TryPop | Bundlor.QueryCompiler/Scanner.cs:46-52 | pops the next token exactly when it has the kind; otherwise the scanner is unchanged |
| Scanning.Scanner.Require | Bundlor.QueryCompiler/Scanner.cs:54-61 | pops the next token, and fails unless it has the kind |
| Scanning.Scanner.EnsureEofReached | Bundlor.QueryCompiler/Scanner.cs:63 | passes exactly when the next token is the end of file, with the same error as `Require` otherwise |
| ScanningProperties.TokenStart | Bundlor.QueryCompiler/Scanner.cs:129-132 | a token starts after whitespace only, on a non-whitespace character, and its text is the input it covers |
| ScanningProperties.WordToken | Bundlor.QueryCompiler/Scanner.cs:135-152 | a word is a nested-query keyword exactly when it is `any`/`all` ignoring case; otherwise a bool literal exactly for `true`/`false`; otherwise an identifier |
| ScanningProperties.IntegerToken | Bundlor.QueryCompiler/Scanner.cs:164-200 | digits not followed by `.`, `:` or `/` give the integer literal of their value up to `Int32.MaxValue`, and an overflow error above it |
| ScanningProperties.DoubleToken | Bundlor.QueryCompiler/Scanner.cs:164-180 | digits, `.`, digits give a double literal over exactly that lexeme |
| ScanningProperties.DotToken | Bundlor.QueryCompiler/Scanner.cs:206-219 | a dot followed by digits is a double literal; a lone dot is the `Dot` token |
| ScanningProperties.StringToken | Bundlor.QueryCompiler/Scanner.cs:222-238 | a quoted text gives a literal whose text keeps the quotes and whose value drops them |
| ScanningProperties.UnterminatedString | Bundlor.QueryCompiler/Scanner.cs:228-229 | a quote without a closing quote is the unterminated-string error at the quote |
| ScanningProperties.OperatorToken | Bundlor.QueryCompiler/Scanner.cs:241-256 | a matching table operator gives its token kind and lexeme and ends after it |
| ScanningProperties.FirstMatchIsLongest | Bundlor.QueryCompiler/Scanner.cs:241-256 | when two table operators match, the first one found is the longer one |
| ScanningProperties.EndOfInput | Bundlor.QueryCompiler/Scanner.cs:271 | the end-of-file token comes exactly when the first character after the whitespace is `\0`, which is past the end of the input or a `\0` inside it; it is then empty and at that position |
| ScanningProperties.NulEndsInput | Bundlor.QueryCompiler/Scanner.cs:271 | `a\0b` scans as the identifier `a` and the end of file at offset 1; the `b` is never read |
| ScanningProperties.UnexpectedCharacter | Bundlor.QueryCompiler/Scanner.cs:272 | a character that starts no token is the unexpected-character error at it |
| ScanningProperties.OneTokenStream | Bundlor.QueryCompiler/Scanner.cs:125-276 | an input that is one token is scanned as that token followed by end of file |
| ScanningProperties.IdentifierExample | Bundlor.QueryCompiler.Tests/ScannerTests.cs:44-55 | `xxx` is one identifier |
| ScanningProperties.IntegerExample | Bundlor.QueryCompiler.Tests/ScannerTests.cs:93-98 | `1234` is the integer literal 1234 |
| ScanningProperties.DoubleExample | Bundlor.QueryCompiler.Tests/ScannerTests.cs:102-107 | `1.234` is a double literal |
| ScanningProperties.StringExample | Bundlor.QueryCompiler.Tests/ScannerTests.cs:84-89 | `"string"` is the string literal `string` |
| ScanningProperties.TrueExample | Bundlor.QueryCompiler.Tests/ScannerTests.cs:111-116 | `true` is the bool literal `true` |
| ScanningProperties.UnterminatedExample | Bundlor.QueryCompiler.Tests/ScannerTests.cs:158 | `"unterminated string` fails as unterminated at 0 |
| ScanningProperties.UnexpectedExample | Bundlor.QueryCompiler.Tests/ScannerTests.cs:159 | `'` is an unexpected character |
| ScanningProperties.NotEqualExample | Bundlor.QueryCompiler/Scanner.cs:241-256 | `!=` is one `NotEqual` token, not `!` then `=` |
| ScanningProperties.NotExample | Bundlor.QueryCompiler/Scanner.cs:268 | `!a` starts with the `Not` token |
| Parsing.FindMember | Bundlor.QueryCompiler/Parser.cs:112-113 | the member with exactly that name, or none when no member has it |
| Parsing.Candidates | Bundlor.QueryCompiler/Parser.cs:116-118 | exactly the members whose name starts with the text, ignoring case |
| Parsing.Names | Bundlor.QueryCompiler/Parser.cs:125 | the candidates' names, in order |
| Parsing.GetMemberInfo | Bundlor.QueryCompiler/Parser.cs:110-130 | a resolved member is one of the context's members whose name starts with the token's text ignoring case; a failure is the not-found or ambiguous error over the token |
| Parsing.QuantifierOf | Bundlor.QueryCompiler/Parser.cs:44-49 | `Any` exactly for `any` ignoring case, `All` exactly for `all`; any other word is the unknown-operator error |
| Parsing.ConstantOf | Bundlor.QueryCompiler/Parser.cs:88 | a literal with one variant gives the constant it was built from; a literal without a value fails with `InvalidOperationException` |
| Parsing.ParseExpr | Bundlor.QueryCompiler/Parser.cs:25-76 | a successful parse consumes at least one result and stops before the end of the stream |
| Parsing.ParsePrimary | Bundlor.QueryCompiler/Parser.cs:78-108 | a successful parse consumes at least one result and stops before the end of the stream |
| Parsing.PrimaryAt | Bundlor.QueryCompiler/Parser.cs:81-105 | the same, by the kind of the first token |
| Parsing.ParseOperators | Bundlor.QueryCompiler/Parser.cs:29-75 | the loop stops within the stream |
| Parsing.OperatorTurn | Bundlor.QueryCompiler/Parser.cs:31-74 | a turn that continues consumes at least one result |
| Parsing.BinaryTurn | Bundlor.QueryCompiler/Parser.cs:58-74 | an operator binding tighter than the floor pops and builds `left op right`, where `right` is parsed at the operator's precedence |
| Parsing.NoTurn | Bundlor.QueryCompiler/Parser.cs:58-61 | a non-operator or an operator not above the floor ends the loop |
| Parsing.NestedTurn | Bundlor.QueryCompiler/Parser.cs:31-56 | a nested-query keyword continues the loop with the nested query |
| Parsing.ParseNested | Bundlor.QueryCompiler/Parser.cs:33-53 | a nested query stops within the stream |
| Parsing.NestedAfterOpen | Bundlor.QueryCompiler/Parser.cs:33-41 | after `{` over a sequence type, the nested query is its filter |
| Parsing.NestedFilter | Bundlor.QueryCompiler/Parser.cs:41-53 | the nested filter stops within the stream |
| Parsing.NestedClose | Bundlor.QueryCompiler/Parser.cs:44-53 | the closing step consumes exactly the `}` |
| Parsing.NestedCloseAsWritten | Bundlor.QueryCompiler/Parser.cs:44-53 | as written, the close always fails: an error of `NestedClose` is passed on, and where `NestedClose` succeeds the result is `MissingQuantifierMethod` of its quantifier |
| Parsing.FailedTurn | Bundlor.QueryCompiler/Parser.cs:31 | a turn at a token the scanner could not read fails with the scanner's error |
| Parsing.ParseFilter | Bundlor.QueryCompiler/QueryCompiler.cs:25-40 | the filter lambda consumes at least one result, and its body is a `bool` |
| Parsing.Parser.constructor | Bundlor.QueryCompiler/Parser.cs:22-23 | keeps the scanner and context |
| Parsing.Parser.ParseExpression | Bundlor.QueryCompiler/Parser.cs:25-76 | returns `ParseExpr` of the stream at the scanner's position and leaves the scanner after it |
| Parsing.Parser.ParseOperatorTurn | Bundlor.QueryCompiler/Parser.cs:31-74 | one loop turn follows `OperatorTurn`; a stopping turn leaves the scanner unchanged |
| Parsing.Parser.ParseNestedTurn | Bundlor.QueryCompiler/Parser.cs:31-56 | the nested-query branch follows `OperatorTurn` |
| Parsing.Parser.ParseBinaryOperator | Bundlor.QueryCompiler/Parser.cs:58-74 | the peek branch follows `OperatorTurn`, and stops without consuming anything |
| Parsing.Parser.ParseRightOperand | Bundlor.QueryCompiler/Parser.cs:63-74 | the pop and the right operand follow `OperatorTurn` |
| Parsing.Parser.ParseNestedQuery | Bundlor.QueryCompiler/Parser.cs:33-53 | follows `ParseNested` |
| Parsing.Parser.ParseNestedFilter | Bundlor.QueryCompiler/Parser.cs:41-53 | follows `NestedFilter` |
| Parsing.Parser.ParseNestedClose | Bundlor.QueryCompiler/Parser.cs:44-53 | follows `NestedClose` |
| Parsing.Parser.ParseMemberAccess | Bundlor.QueryCompiler/Parser.cs:83-85 | follows `PrimaryAt` for an identifier |
| Parsing.Parser.ParseConstant | Bundlor.QueryCompiler/Parser.cs:87-88 | follows `PrimaryAt` for a literal |
| Parsing.Parser.ParseParenthesized | Bundlor.QueryCompiler/Parser.cs:90-94 | follows `PrimaryAt` for `(` |
| Parsing.Parser.ParseUnary | Bundlor.QueryCompiler/Parser.cs:96-100 | follows `PrimaryAt` for `-` and `!` |
| Parsing.Parser.ParsePrimaryExpression | Bundlor.QueryCompiler/Parser.cs:78-108 | returns `ParsePrimary` at the scanner's position and leaves the scanner after it |
| Parsing.Parser.ParseInvalidToken | Bundlor.QueryCompiler/Parser.cs:102-104 | any other token fails |
| Parsing.CompileFilterExpression | Bundlor.QueryCompiler/QueryCompiler.cs:25-40 | returns `ParseFilter` at the scanner's position, rejecting a body that is not a `bool`, and leaves the scanner after it |
| ParsingProperties.StartsWithItself | Bundlor.QueryCompiler/Parser.cs:117 | every name is a case-insensitive prefix of itself |
| ParsingProperties.MemberResolution | Bundlor.QueryCompiler/Parser.cs:110-130 | an exact name wins; otherwise a single case-insensitive prefix candidate is taken; "not found" exactly when no member has the prefix; "ambiguous" exactly when there is no exact match and several candidates |
| ParsingProperties.TurnStopsExactly | Bundlor.QueryCompiler/Parser.cs:31-61 | a turn ends the loop exactly when the next token is neither a keyword nor an operator above the floor |
| ParsingProperties.OperatorsReturnLeft | Bundlor.QueryCompiler/Parser.cs:58-61 | when the loop stops at once it returns `left` where it stands |
| ParsingProperties.OperatorsStop | Bundlor.QueryCompiler/Parser.cs:29-75 | a successful loop stops exactly at a token that ends it |
| ParsingProperties.ExprStops | Bundlor.QueryCompiler/Parser.cs:25-76 | a successful expression parse stops at a token that is not an operator above its floor |
| ParsingProperties.TurnOfOperand | Bundlor.QueryCompiler/Parser.cs:58-74 | a turn over an operator builds `left op right` from the parsed right operand |
| ParsingProperties.LeftGrouping | Bundlor.QueryCompiler/Parser.cs:25-74 | `a op b`, where `b` is followed by an operator not binding tighter, continues the loop with `(a op b)` |
| ParsingProperties.OperandGrouping | Bundlor.QueryCompiler/Parser.cs:58-74 | the same, from the middle of the loop |
| ParsingProperties.TwoOperators | Bundlor.QueryCompiler/Parser.cs:25-76 | `a op1 b op2 d` is grouped `(a op1 b) op2 d` when `op2` binds no tighter than `op1`, else `a op1 (b op2 d)` |
| ParsingProperties.TwoOperatorsLeft | Bundlor.QueryCompiler/Parser.cs:58-74 | the left-grouped case of `TwoOperators` |
| ParsingProperties.FinalOperand | Bundlor.QueryCompiler/Parser.cs:58-74 | a last operand followed by a stopping token closes the expression |
| ParsingProperties.TwoOperatorsRight | Bundlor.QueryCompiler/Parser.cs:63-74 | the right-grouped case of `TwoOperators` |
| ParsingProperties.RightOperandOfTwo | Bundlor.QueryCompiler/Parser.cs:63-74 | the tighter operator's right operand is `b op2 d` |
| ParsingProperties.OperandOf | Bundlor.QueryCompiler/Parser.cs:63-74 | a right operand followed by a stopping token closes the loop with `left op right` |
| ParsingProperties.RightOperand | Bundlor.QueryCompiler/Parser.cs:63-65 | the right operand is parsed at the operator's precedence and stops at a token not binding tighter |
| ParsingProperties.PrimaryMember | Bundlor.QueryCompiler/Parser.cs:83-85 | an identifier is the member access of the resolved member |
| ParsingProperties.PrimaryConstant | Bundlor.QueryCompiler/Parser.cs:87-88 | a literal is the constant it carries |
| ParsingProperties.PrimaryUnary | Bundlor.QueryCompiler/Parser.cs:96-100 | `-`/`!` apply to the whole expression after them, parsed from the lowest precedence |
| ParsingProperties.PrimaryParenthesized | Bundlor.QueryCompiler/Parser.cs:90-94 | `( e )` is `e`, and `)` is required |
| ParsingProperties.PrimaryInvalid | Bundlor.QueryCompiler/Parser.cs:102-104 | any other token is the invalid-expression-token error over the token |
| ParsingProperties.UpperToLower | Bundlor.QueryCompiler/Parser.cs:44 | a character equal to an ASCII lower-case letter ignoring case lowers to it |
| ParsingProperties.LowerOfKeyword | Bundlor.QueryCompiler/Parser.cs:44 | a word equal to a lower-case keyword ignoring case lowers to it |
| ParsingProperties.KeywordQuantifier | Bundlor.QueryCompiler/Parser.cs:44-49 | every word the scanner makes a keyword selects a quantifier: `Any` exactly for `any` ignoring case |
| ParsingProperties.FilterBody | Bundlor.QueryCompiler/QueryCompiler.cs:30-39 | a parsed body of type `bool` is the lambda over `it{depth}`; a body of any other type fails as `Expression.Lambda` does, naming that type |
| ParsingProperties.NestedQueryTurn | Bundlor.QueryCompiler/Parser.cs:31-56 | `x kw { e }` over a sequence operand, with a `bool` filter `e` parsed one level deeper and closed by `}`, is `Any` or `All` (as `kw` says) of `x` and the lambda over `it{depth+1}`; the loop goes on after the `}` |
| ParsingProperties.NestedNotEnumerable | Bundlor.QueryCompiler/Parser.cs:37-40 | a nested query over an operand that is not a sequence fails with `InvalidOperationException` naming its type |
| ParsingProperties.NestedQueryAsWritten | Bundlor.QueryCompiler/Parser.cs:44-53 | for the same well-formed `x kw { e }` as `NestedQueryTurn`, the filter parses and `NestedClose` builds `NestedQuery(Any or All, x, it => e)`, while `NestedCloseAsWritten` fails with `MissingQuantifierMethod` after the `}` |
| ParsingProperties.NestedWithoutOpen | Bundlor.QueryCompiler/Parser.cs:33 | a keyword not followed by `{` fails with "expected `{`" over that token |
| ParsingProperties.NestedWithoutClose | Bundlor.QueryCompiler/Parser.cs:41-51 | a nested filter not followed by `}` fails with "expected `}`" over that token |
| ParsingProperties.NestedUnclosed | Bundlor.QueryCompiler/Parser.cs:33-51 | after `{` and a `bool` filter, a token other than `}` makes the rest of the nested query fail there with `Expected(BlockClose)` |
| ParsingProperties.FilterUnclosed | Bundlor.QueryCompiler/Parser.cs:41-51 | a nested query's `bool` filter followed by a token other than `}` fails there with `Expected(BlockClose)` |
| ParsingProperties.NestedFilterCloses | Bundlor.QueryCompiler/Parser.cs:41-51 | once the filter parses one level deeper with a `bool` body, the nested query continues with its close after that body |
| ParsingProperties.UnclosedFilter | Bundlor.QueryCompiler/Parser.cs:44-51 | after the filter and a valid keyword, a token other than `}` fails there |
| ParserExamples.NoCandidate | Bundlor.QueryCompiler/Parser.cs:116-118 | no prefix match gives no candidates |
| ParserExamples.SingleCandidate | Bundlor.QueryCompiler/Parser.cs:116-118 | one prefix match gives exactly that candidate |
| ParserExamples.LetterPrefix | Bundlor.QueryCompiler/Parser.cs:117 | a lower-case letter is a prefix of an upper-case one-letter name exactly when they are the same letter |
| ParserExamples.LowerLetters | Bundlor.QueryCompiler.Tests/ParserTests.cs:35 | the test's field letters `a`..`f` |
| ParserExamples.ShortcutMember | Bundlor.QueryCompiler/Parser.cs:110-130 | `a`..`f` resolve to the test record's fields `A`..`F` |
| ParserExamples.FieldOperand | Bundlor.QueryCompiler/Parser.cs:83-85 | an identifier `a`..`f` is the access of field `A`..`F` |
| ParserExamples.LogicalOperator | Bundlor.QueryCompiler/Token.cs:103-104 | `&&` and `\|\|` are binary operators above the lowest precedence |
| ParserExamples.EndStops | Bundlor.QueryCompiler/Parser.cs:58-61 | end of file stops every loop |
| ParserExamples.ThreeFieldsShape | Bundlor.QueryCompiler.Tests/ParserTests.cs:53-110 | `a op b op c` over two logical operators meets `TwoOperators`' assumptions |
| ParserExamples.ThreeOperands | Bundlor.QueryCompiler.Tests/ParserTests.cs:53-110 | the three operands are fields `A`, `B`, `C` |
| ParserExamples.AndThenOr | Bundlor.QueryCompiler.Tests/ParserTests.cs:53-64 | `a && b \|\| c` is `(A && B) \|\| C` |
| ParserExamples.OrThenAnd | Bundlor.QueryCompiler.Tests/ParserTests.cs:76-87 | `a \|\| b && c` is `A \|\| (B && C)` |
| ParserExamples.OrThenOr | Bundlor.QueryCompiler.Tests/ParserTests.cs:99-110 | `a \|\| b \|\| c` is `(A \|\| B) \|\| C` |
| ParserExamples.FiveOperands | Bundlor.QueryCompiler.Tests/ParserTests.cs:124-182 | the five operands are fields `A`..`E` |
| ParserExamples.AndAndOrAnd | Bundlor.QueryCompiler.Tests/ParserTests.cs:124-145 | `a && b && c \|\| d && e` is `((A && B) && C) \|\| (D && E)` |
| ParserExamples.AndAndOrAndExpr | Bundlor.QueryCompiler.Tests/ParserTests.cs:124-145 | the expression of `a && b && c \|\| d && e` |
| ParserExamples.AndAndPrefix | Bundlor.QueryCompiler.Tests/ParserTests.cs:124-145 | the `&&` prefix groups to the left before `\|\|` |
| ParserExamples.OrAndSuffix | Bundlor.QueryCompiler.Tests/ParserTests.cs:124-145 | `\|\| d && e` takes `D && E` as its right operand |
| ParserExamples.OrAndOrOr | Bundlor.QueryCompiler.Tests/ParserTests.cs:161-182 | `a \|\| b && c \|\| d \|\| e` is `((A \|\| (B && C)) \|\| D) \|\| E` |
| ParserExamples.OrAndOrOrExpr | Bundlor.QueryCompiler.Tests/ParserTests.cs:161-182 | the expression of `a \|\| b && c \|\| d \|\| e` |
| ParserExamples.OrAndPrefix | Bundlor.QueryCompiler.Tests/ParserTests.cs:161-182 | the prefix `a \|\| b && c` is `A \|\| (B && C)` before the next `\|\|` |
| ParserExamples.OrOrSuffix | Bundlor.QueryCompiler.Tests/ParserTests.cs:161-182 | `\|\| d \|\| e` groups to the left |
| ParserExamples.OneOperator | Bundlor.QueryCompiler/Parser.cs:25-76 | `x op y` then end of file is `x op y` |
| ParserExamples.FieldsAB | Bundlor.QueryCompiler.Tests/ParserTests.cs:35-41 | `a` and `b` are fields `A` and `B` |
| ParserExamples.OneOperatorFilter | Bundlor.QueryCompiler/QueryCompiler.cs:25-40 | the filter of `x op y` is the lambda over `it0` of `x op y` |
| ParserExamples.AndOfTwo | Bundlor.QueryCompiler.Tests/ParserTests.cs:35-41 | `a && b` is `A && B` |
| ParserExamples.NotOfAnd | Bundlor.QueryCompiler/Parser.cs:96-100 | `!a && b` is `!(A && B)`: the unary operator takes the whole rest |
| ParserExamples.UnaryOperand | Bundlor.QueryCompiler/Parser.cs:96-100 | `!` before an expression that runs to the end applies to all of it |
| ParserExamples.UnaryPrimary | Bundlor.QueryCompiler/Parser.cs:96-100 | the primary for `!` is the negation of the rest |
| ParserExamples.ApplesShortcut | Bundlor.QueryCompiler.Tests/ParserTests.cs:187-198 | `a` resolves to `Apples` of the shortcut test type |
| ParserExamples.ApplesOperands | Bundlor.QueryCompiler.Tests/ParserTests.cs:192-198 | `a` is `Apples` and `0` is the constant 0 |
| ParserExamples.ApplesNotZero | Bundlor.QueryCompiler.Tests/ParserTests.cs:192-198 | `a != 0` is `Apples != 0` |
| QueryCompilation.QueryOf | Bundlor.QueryCompiler/QueryCompiler.cs:17 | the scanned query is a well-shaped stream |
| QueryCompilation.CompiledQuery | Bundlor.QueryCompiler/QueryCompiler.cs:15-23 | `CompileFilterExpression<T>(query)`: the compilation of the scanned query over `T` |
| QueryCompilation.Compiled | Bundlor.QueryCompiler/QueryCompiler.cs:18-22 | the filter over the record type at depth 0, then `EnsureEofReached`; its properties are the lemmas below |
| QueryCompilation.CompileParseFailure | Bundlor.QueryCompiler/QueryCompiler.cs:17-18 | a failing parse is the compilation's error |
| QueryCompilation.CompileAtEnd | Bundlor.QueryCompiler/QueryCompiler.cs:15-23 | a parsed filter (whose body is a `bool`) is the result exactly when the next token is end of file; the lambda's parameter is `it0` of the record type |
| QueryCompilation.CompiledWholeStream | Bundlor.QueryCompiler/QueryCompiler.cs:20 | a compiled query consumed every token before the end of file |
| QueryCompilation.CompileTrailingToken | Bundlor.QueryCompiler/QueryCompiler.cs:20 | a trailing token fails with "expected end of file" over that token |
| QueryCompilation.CompileFilterExpression | Bundlor.QueryCompiler/QueryCompiler.cs:15-23 | the scanner and parser objects together compute `CompiledQuery` |
| CompilerExamples.DiffersAt | Bundlor.QueryCompiler/Parser.cs:117 | a name that differs from the text at one position ignoring case does not start with it |
| CompilerExamples.UniqueShortcut | Bundlor.QueryCompiler/Parser.cs:110-130 | a text that starts exactly one member's name, and is not that name, resolves to that member |
| CompilerExamples.ListShortcut | Bundlor.QueryCompiler.Tests/CompilerTests.cs:206 | `list` resolves to `List` of `SampleStruct` |
| CompilerExamples.OnlyListStartsWithList | Bundlor.QueryCompiler.Tests/CompilerTests.cs:19-31 | of the members of `SampleStruct`, exactly `List` starts with `list`, ignoring case, and is not equal to it |
| CompilerExamples.NumberShortcut | Bundlor.QueryCompiler.Tests/CompilerTests.cs:206 | `number` resolves to `NumberOfBananas` of `StructField` |
| CompilerExamples.ListAnyOperands | Bundlor.QueryCompiler.Tests/CompilerTests.cs:206 | the operands `list`, `number` and `3`, one level apart |
| CompilerExamples.NumberAboveThree | Bundlor.QueryCompiler.Tests/CompilerTests.cs:206 | the nested filter `number > 3` over `it1` ends at `}` |
| CompilerExamples.ListAnyExpr | Bundlor.QueryCompiler.Tests/CompilerTests.cs:206 | the whole expression is the `Any` query over `it0.List` |
| CompilerExamples.ListAnyParse | Bundlor.QueryCompiler.Tests/CompilerTests.cs:206 | the compiled lambda, once the operands are known |
| CompilerExamples.ListAnyNumberAboveThree | Bundlor.QueryCompiler.Tests/CompilerTests.cs:204-227 | `list any { number > 3 }` compiles to `it0 => it0.List.Any(it1 => it1.NumberOfBananas > 3)` |
| CompilerExamples.ListAnyAsWritten | Bundlor.QueryCompiler/Parser.cs:44-53 | on the tokens of `list any { number > 3 }`, the corrected close at the `}` makes the `Any` node and the close as written fails with `MissingQuantifierMethod(Any)` |
| CompilerExamples.LoginAttShortcut | Bundlor.QueryCompiler/Parser.cs:110-130 | `loginatt` resolves to `LoginAttempts` |
| CompilerExamples.LoginAttParse | Bundlor.QueryCompiler/QueryCompiler.cs:34-37 | the query that is the `int` member alone fails as no `bool` filter |
| CompilerExamples.LoginAttemptsIsNoFilter | Bundlor.QueryCompiler/QueryCompiler.cs:34-37 | `loginatt` over `SampleStruct` fails to compile, naming `System.Int32` |
| GlobMatching.Glob | Bundlor.QueryCompiler/SpecialBinaryOperatorFunctions.cs:21-58 | the independent reference for `Like`, not in the code: `*` matches any run, `?` one character, any other character itself |
| GlobMatching.Cell | Bundlor.QueryCompiler/SpecialBinaryOperatorFunctions.cs:28-55 | the table's recurrence: corner `true`, first row the leading `*` run, first column otherwise `false`, inner cells from their neighbours |
| GlobMatching.OrEmpty | Bundlor.QueryCompiler/SpecialBinaryOperatorFunctions.cs:23-24 | `?? ""`: a `null` string is read as empty |
| GlobMatching.CellIsGlob | Bundlor.QueryCompiler/SpecialBinaryOperatorFunctions.cs:26-55 | table cell `(i, j)` holds exactly when the first `i` text characters match the first `j` pattern characters |
| GlobMatching.StarAbsorbs | Bundlor.QueryCompiler/SpecialBinaryOperatorFunctions.cs:42-45 | a final `*` takes one more character or none |
| GlobMatching.Like | Bundlor.QueryCompiler/SpecialBinaryOperatorFunctions.cs:21-58 | the text matches the pattern, each `null` read as empty |
| GlobMatching.FillFirstRow | Bundlor.QueryCompiler/SpecialBinaryOperatorFunctions.cs:28-36 | the first row follows the leading `*`s and the first column stays false |
| GlobMatching.FillRows | Bundlor.QueryCompiler/SpecialBinaryOperatorFunctions.cs:38-55 | every cell is the recurrence's value |
| GlobMatching.EmptyTextMatches | Bundlor.QueryCompiler/SpecialBinaryOperatorFunctions.cs:28-36 | the empty text matches exactly the all-`*` patterns |
| GlobMatching.LiteralPattern | Bundlor.QueryCompiler/SpecialBinaryOperatorFunctions.cs:46-52 | a pattern without wildcards matches exactly itself |
| GlobMatching.QuestionMarks | Bundlor.QueryCompiler/SpecialBinaryOperatorFunctions.cs:46-48 | `?`s alone match exactly the texts of their length |
| GlobMatching.StarMatchesAll | Bundlor.QueryCompiler/SpecialBinaryOperatorFunctions.cs:42-45 | `*` matches everything |
| GlobMatching.TrailingStar | Bundlor.QueryCompiler/SpecialBinaryOperatorFunctions.cs:42-45 | `p*` matches every text that starts with a match of `p` |
| GlobMatching.EmptyAndQuestionExamples | Bundlor.QueryCompiler.Tests/SpecialBinaryOperatorFunctionTests.cs:6-24 | the test cases with the empty text and with `?` |
| GlobMatching.StarAroundExamples | Bundlor.QueryCompiler.Tests/SpecialBinaryOperatorFunctionTests.cs:10-12 | `*a` and `a*` match `a` |
| GlobMatching.LongerPrefixExample | Bundlor.QueryCompiler.Tests/SpecialBinaryOperatorFunctionTests.cs:13 | `abc*` does not match `a` |
| GlobMatching.StarInsideExample | Bundlor.QueryCompiler.Tests/SpecialBinaryOperatorFunctionTests.cs:16 | `a*c` matches `abbbbbbc` |
| GlobMatching.BundlorExamples | Bundlor.QueryCompiler.Tests/SpecialBinaryOperatorFunctionTests.cs:25-26 | `bun*r` matches `bundlor` and `bun?r` does not |

## Left out

- Expression trees and reflection: the parser builds the `Ast.Expr` datatype instead of
  `System.Linq.Expressions` nodes. `Ast.Schema` stands for `Type.GetMembers`,
  `GetInterfaces` and `IEnumerable<T>` element types. `Expression.Lambda(...).Compile()`
  and `Compile<T>` (QueryCompiler.cs:9-13) are not modelled, because evaluation is left out.
- The dictionary of members is a sequence in its enumeration order. The exact lookup is
  ordinal, because Parser.cs:112 looks the name up with the dictionary's default comparer.
  The test at CompilerTests.cs:241 lists case-insensitive shortcuts as intended; only the
  prefix search (Parser.cs:117) ignores case.
- The `ParserContext` that QueryCompiler.cs:32 constructs does not match the record at
  Parser.cs:9-12, and Parser.cs:41 passes an `int` where a `ParserContext?` is expected. The
  model reads the intent: the context of the filter's record type at depth `depth`, with the
  parameter `it{depth}`.
- `_scanner.ThrowError(token.Start, msg)` (Parser.cs:103, 121, 126) has no matching overload.
  The model raises the error over the token's span, as `ThrowError(token, msg)` does.
- Nested queries: the model builds a `NestedQuery(Any|All, ...)` node, what
  CompilerTests.cs:204-227 expect, and not the failing call the code makes (see "Findings").
  `count` is not among the keywords (Token.cs:122).
- The `SpecialBinaryOperators` table (Token.cs:121) is consulted by no code, so it has no
  counterpart in the model.
- The binary operator table has no `Call` entries, so `=?`, `=~` and the special
  operators have no token. `=?` scans to an unexpected-character error. `Matches`
  (SpecialBinaryOperatorFunctions.cs:68-74) depends on .NET regular expressions and is not
  modelled.
- Tokens.TryGetBinaryOperatorInfo: this and `TryGetUnaryOperatorInfo` are written as a match
  on the token kind. `BinaryOperatorLookup` and `UnaryOperatorLookup` prove each equal to the
  `FirstOrDefault` search of the table.
- Double literals keep their lexeme (`Ast.DoubleConstant`). The binary64 value
  `double.Parse` computes is not modelled, because floating point is out of scope.
- Time-span and date literals (Scanner.cs:182-194) throw `NotImplementedException` in the
  code, and the model returns the `NotImplemented` error. The commented-out time-span parser
  and `Functions.cs` are not part of this model.
- Characters: `char.IsLetter`, `IsNumber`, `IsWhiteSpace` and case mapping are exact for
  U+0000..U+00FF. Above U+00FF every character is treated as no letter, number or whitespace,
  because the Unicode tables are out of scope.
- `Debug.Assert(!EofReached)` in `Pop` (Scanner.cs:127) is the precondition `!eofReached`.
  The parser is proved never to pop past the end of file on a successful path.
- `Scanner.Pop` is split into one method per token class (`PopWord`, `PopNumber`, ...), and
  `Like` into the methods `FillFirstRow` and `FillRows`. The loops stay as loops.
- The parser's statements about whole queries are proved over token streams written out
  token by token (`ParserExamples`). They are not derived from the query text through the
  scanner. The scanner unit tests are proved separately (`ScanningProperties`).
- The scanner test at ScannerTests.cs:140 expects a `\r\n` kept inside a string literal. The
  constructor (Scanner.cs:19) removes every `\r` first; the model follows the code.
- Operand types: `Expression.MakeBinary` (Parser.cs:69) and `Expression.MakeUnary`
  (Parser.cs:100) throw on operands of the wrong type, such as `a && 3` over a `bool` property,
  `loginatt == 1.5`, or `-b` on a `bool`. The .NET operator-resolution rules are not
  modelled, and the model builds these nodes; `Ast.StaticType` gives each node a type
  without checking its operands. Only the last type check, for a `bool` body
  (QueryCompiler.cs:36-37), is modelled.
- CompileAtEnd: a filter the model parses can still be one that `MakeBinary` or `MakeUnary`
  reject, because of the operand types above; for such a query the lemma promises success
  where the code throws.
- ParseNested: its own contract says only that a nested query stops within the stream.
  What it builds and how it fails are stated by `ParsingProperties.NestedQueryTurn`,
  `NestedNotEnumerable`, `NestedWithoutOpen` and `NestedWithoutClose`. The `Enumerable` call is
  the `NestedQuery` node; the lookup as written is `Parsing.NestedCloseAsWritten`.
- The error excerpt is the span's enclosing lines: a span that crosses a line break, such as
  an unterminated string `"a` then a new line then `b`, shows all the lines it touches.
  `Debug.Assert(!line.Contains('\n'))` (Scanner.cs:108) would fail there; the model does not
  model that assertion.
- `Token.cs` as given declares a different `TokenKind` (Token.cs:5-30: `StringLiteral`,
  `IntegerLiteral`, `FloatingPointLiteral`, `BooleanLiteral`, `SpecialBinaryOperator` and
  `BitwiseNot`, but no `Literal`, `Dot`, `IteratorVariable`, `Multiply`, `Divide` or `Plus`)
  and a `Token` without a start offset that carries the literal accessors itself
  (Token.cs:44-91). The model follows the kinds and token shape `Scanner.cs` uses, with the
  literal payload as `Tokens.LiteralValue`, and reads `BitwiseNot` as its `BitNot`.
- The literal accessors (Token.cs:51-77) are the `Option` fields of `LiteralValue`: `None` is
  the `InvalidOperationException` an unset one throws.
- The exception types are one `Diagnostics.Error` datatype. All messages are a `Message`
  value, not formatted text.

## Findings

| source | as written | input that shows it | evidently intended | confidence | as-written member | corrected member |
|---|---|---|---|---|---|---|
| Bundlor.QueryCompiler/Scanner.cs:88 | the line-start search continues only while `lineStart > 1`, so on the first line it stops at 1 | `a'`, error at offset 1: the excerpt shows `'` and loses the `a` | stop at 0, the input's first character | not executed | Diagnostics.ExcerptAsWrittenDropsFirstCharacter | Diagnostics.ExcerptStartsAtLineStart |
| Bundlor.QueryCompiler/Scanner.cs:99-106 | after cutting the line on the left, `relativeEnd` is not shifted, so the right cut keeps `relativeEnd + 20` characters of the shortened line | one line of `2n` characters with an error at `n` > 24: the excerpt is `n + 22` characters long | at most 20 characters of context on each side of the span | not executed | Diagnostics.ExcerptAsWrittenUnbounded | Diagnostics.ExcerptMarksSpan |
| Bundlor.QueryCompiler/Parser.cs:46-53 | `GetMethod("Any"/"All", BindingFlags.Static, types)` asks for no public member and names generic methods by closed parameter types, so it returns `null`, which `!` hides; after `Require(BlockClose)`, `Expression.Call(left, null, filter)` throws (and would also reject `left` as the instance of a static method) | `list any { number > 3 }` over `SampleStruct` (CompilerTests.cs:206) fails at its `}` at offset 22 instead of compiling | `it0 => Enumerable.Any(it0.List, it1 => it1.NumberOfBananas > 3)`: the generic method made for the element type, called with `left` and the filter as arguments | not executed | ParsingProperties.NestedQueryAsWritten | ParsingProperties.NestedQueryTurn |
