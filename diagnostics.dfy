/** Compilation errors and the source excerpt `Scanner.ThrowError` attaches to them. */
module Diagnostics {
  import opened Wrappers
  import opened Ast
  import opened Tokens

  /** The human-readable part of a `QueryCompilationException`. */
  datatype Message =
    | Expected(kind: TokenKind)
    | UnexpectedCharacter(character: char)
    | UnterminatedString
    | InvalidExpressionToken(kind: TokenKind)
    | MemberNotFound(name: string)
    | Ambiguous(name: string, candidates: seq<string>)

  /** The excerpt of the offending line: the part of it that is shown, whether `...` stands
      for a cut at either end, and where the span sits in the rendered line and how wide it
      is. `Line` and `Marker` render it as the two text lines of the message. */
  datatype Excerpt = Excerpt(cutLeft: bool, shown: string, cutRight: bool, column: nat, width: nat)

  datatype InvalidOperationReason =
    | NotEnumerable(typeName: TypeName)
    | UnknownNestedQueryOperator(text: string)
    | MissingLiteralValue

  /** The exceptions compiling a query can raise. */
  datatype Error =
    | QueryCompilation(position: nat, message: Message, excerpt: Excerpt)
    | Overflow(lexeme: string)
    | Format(lexeme: string)
    | NotImplemented
    | InvalidOperation(reason: InvalidOperationReason)
    /** The `ArgumentException` of `Expression.Lambda` when a filter's body is not a `bool`. */
    | NotPredicate(bodyType: TypeName)
    /** The `ArgumentNullException` of `Expression.Call` when the reflected `Enumerable` method of
        a nested query is `null`. */
    | MissingQuantifierMethod(quantifier: Quantifier)

  /** How many characters of context an excerpt keeps on either side of the span. */
  const ContextWidth: nat := 20
  const Ellipsis: string := "..."
  const EmptyInputLine: string := "(empty input)"

  function Repeat(c: char, n: nat): (r: string)
    ensures |r| == n && forall k :: 0 <= k < n ==> r[k] == c
  {
    if n == 0 then [] else Repeat(c, n - 1) + [c]
  }

  /** The excerpt line: the shown text with `...` where it is cut. */
  function Line(x: Excerpt): (l: string)
    ensures |l| == |x.shown| + (if x.cutLeft then |Ellipsis| else 0) + (if x.cutRight then |Ellipsis| else 0)
    ensures var k := if x.cutLeft then |Ellipsis| else 0; l[k..k + |x.shown|] == x.shown
  {
    (if x.cutLeft then Ellipsis else "") + x.shown + (if x.cutRight then Ellipsis else "")
  }

  /** The caret line: spaces up to the span and one `^` per spanned character. */
  function Marker(x: Excerpt): (m: string)
    ensures |m| == x.column + x.width
    ensures forall k :: 0 <= k < |m| ==> m[k] == (if k < x.column then ' ' else '^')
  {
    Repeat(' ', x.column) + Repeat('^', x.width)
  }

  /** The beginning of the line that encloses offset `i`. */
  function LineStart(s: string, i: nat): (r: nat)
    requires i <= |s|
    ensures r <= i
  {
    if i > 0 && s[i - 1] != '\n' then LineStart(s, i - 1) else i
  }

  /** The end (exclusive) of the line that encloses offset `i`. */
  function LineEnd(s: string, i: nat): (r: nat)
    requires i <= |s|
    ensures i <= r <= |s|
    decreases |s| - i
  {
    if i < |s| && s[i] != '\n' then LineEnd(s, i + 1) else i
  }

  /** The line around offset `i` runs from just after the previous line break to just before
      the next one, and contains no line break itself. */
  lemma {:induction false} EnclosingLine(s: string, i: nat)
    requires i <= |s|
    ensures var r := LineStart(s, i); (r == 0 || s[r - 1] == '\n') && forall k :: r <= k < i ==> s[k] != '\n'
    ensures var r := LineEnd(s, i); (r == |s| || s[r] == '\n') && forall k :: i <= k < r ==> s[k] != '\n'
    decreases |s| - i
  {
    if i > 0 && s[i - 1] != '\n' {
      EnclosingLineStart(s, i - 1);
    }
    if i < |s| && s[i] != '\n' {
      EnclosingLine(s, i + 1);
    }
  }

  lemma {:induction false} EnclosingLineStart(s: string, i: nat)
    requires i <= |s|
    ensures var r := LineStart(s, i); (r == 0 || s[r - 1] == '\n') && forall k :: r <= k < i ==> s[k] != '\n'
  {
    if i > 0 && s[i - 1] != '\n' {
      EnclosingLineStart(s, i - 1);
    }
  }

  /** The excerpt for the span `[start, end)` of the input `s`: the enclosing line, cut to
      `ContextWidth` characters before and after the span where it is longer, with the span's
      column in the rendered line. The empty input has a fixed placeholder line. */
  function ExcerptOf(s: string, start: nat, end: nat): (x: Excerpt)
    requires start <= end <= |s|
    ensures |s| == 0 ==> Line(x) == EmptyInputLine && x.width == 0
    ensures |s| > 0 ==> x.width == end - start && x.column <= |Ellipsis| + ContextWidth
    ensures |s| > 0 ==> (x.cutLeft <==> start - LineStart(s, start) > ContextWidth)
    ensures |s| > 0 ==> (x.cutRight <==> LineEnd(s, end) - end > ContextWidth)
  {
    if |s| == 0 then Excerpt(false, EmptyInputLine, false, 0, 0)
    else
      var lineStart, lineEnd := LineStart(s, start), LineEnd(s, end);
      var cutLeft := start - lineStart > ContextWidth;
      var cutRight := lineEnd - end > ContextWidth;
      var lo := if cutLeft then start - ContextWidth else lineStart;
      var hi := if cutRight then end + ContextWidth else lineEnd;
      var column := if cutLeft then |Ellipsis| + ContextWidth else start - lineStart;
      Excerpt(cutLeft, s[lo..hi], cutRight, column, end - start)
  }

  lemma SliceOfSlice(s: string, lo: nat, hi: nat, i: nat, j: nat)
    requires lo <= i <= j <= hi <= |s|
    ensures s[lo..hi][i - lo..j - lo] == s[i..j]
  {
    assert forall k | 0 <= k < j - i :: s[lo..hi][i - lo..j - lo][k] == s[i..j][k];
  }

  /** The shown text sits in the rendered line right after the leading `...`, if any. */
  lemma LineShows(x: Excerpt, i: nat, j: nat)
    requires i <= j <= |x.shown|
    ensures var prefix := if x.cutLeft then |Ellipsis| else 0;
      && |Line(x)| == prefix + |x.shown| + (if x.cutRight then |Ellipsis| else 0)
      && Line(x)[prefix + i..prefix + j] == x.shown[i..j]
  {
    var prefix := if x.cutLeft then |Ellipsis| else 0;
    SliceOfSlice(Line(x), prefix, prefix + |x.shown|, prefix + i, prefix + j);
  }

  /** In the rendered excerpt of a non-empty input the carets stand exactly under the spanned
      text, and at most `ContextWidth` characters and `...` are kept on either side of it. */
  lemma ExcerptMarksSpan(s: string, start: nat, end: nat)
    requires start <= end <= |s| && |s| > 0
    ensures ExcerptOf(s, start, end).width == end - start
    ensures var x := ExcerptOf(s, start, end);
      x.column + x.width <= |Line(x)| && Line(x)[x.column..x.column + x.width] == s[start..end]
    ensures |Line(ExcerptOf(s, start, end))| <= 2 * |Ellipsis| + 2 * ContextWidth + (end - start)
  {
    var x := ExcerptOf(s, start, end);
    var lineStart, lineEnd := LineStart(s, start), LineEnd(s, end);
    var lo := if x.cutLeft then start - ContextWidth else lineStart;
    var hi := if x.cutRight then end + ContextWidth else lineEnd;
    assert x.shown == s[lo..hi] && x.width == end - start;
    var prefix := if x.cutLeft then |Ellipsis| else 0;
    assert x.column == prefix + (start - lo);
    LineShows(x, start - lo, end - lo);
    SliceOfSlice(s, lo, hi, start, end);
    ExcerptWithinBound(s, start, end);
  }

  /** The rendered line keeps at most `ContextWidth` characters and `...` on either side of
      the span. */
  lemma ExcerptWithinBound(s: string, start: nat, end: nat)
    requires start <= end <= |s| && |s| > 0
    ensures |Line(ExcerptOf(s, start, end))| <= 2 * |Ellipsis| + 2 * ContextWidth + (end - start)
  {
    var x := ExcerptOf(s, start, end);
    var lineStart, lineEnd := LineStart(s, start), LineEnd(s, end);
    var lo := if x.cutLeft then start - ContextWidth else lineStart;
    var hi := if x.cutRight then end + ContextWidth else lineEnd;
    assert |x.shown| == hi - lo;
  }

  /** Unless the line is cut on the left, the excerpt shows the enclosing line from its first
      character up to the span. */
  lemma ExcerptStartsAtLineStart(s: string, start: nat, end: nat)
    requires start <= end <= |s| && |s| > 0
    requires start - LineStart(s, start) <= ContextWidth
    ensures s[LineStart(s, start)..start] <= Line(ExcerptOf(s, start, end))
  {
    var x := ExcerptOf(s, start, end);
    var lineStart := LineStart(s, start);
    assert !x.cutLeft;
    assert Line(x) == x.shown + (if x.cutRight then Ellipsis else "");
    SliceOfSlice(s, lineStart, lineStart + |x.shown|, lineStart, start);
  }

  // ------------------------------------------------------------------------------------
  // The excerpt as `Scanner.ThrowError` computes it (Scanner.cs:86-110).

  /** The backwards walk of `ThrowError`: it stops at offset 1, not 0. */
  function LineStartAsWritten(s: string, i: nat): (r: nat)
    requires i <= |s|
    ensures r <= i
  {
    if i > 1 && s[i - 1] != '\n' then LineStartAsWritten(s, i - 1) else i
  }

  /** The excerpt as written: after a cut on the left the span moves to column 23, but the
      cut on the right still measures from the old `relativeEnd`, an offset into the uncut line. */
  function ExcerptAsWritten(s: string, start: nat, end: nat): (x: Excerpt)
    requires start <= end <= |s|
    ensures |s| == 0 ==> x == Excerpt(false, EmptyInputLine, false, 0, 0)
    ensures |s| > 0 ==> x.width == end - start
  {
    if |s| == 0 then Excerpt(false, EmptyInputLine, false, 0, 0)
    else
      var lineStart := LineStartAsWritten(s, start);
      var relativeStart := start - lineStart;
      var relativeEnd := end - lineStart;
      var lineEnd := LineEnd(s, end);
      var cutLeft := relativeStart > ContextWidth;
      var prefix := if cutLeft then |Ellipsis| else 0;
      var lo := if cutLeft then start - ContextWidth else lineStart;
      // the length of the line after the cut on the left, "..." included
      var length := prefix + (lineEnd - lo);
      var cutRight := length - relativeEnd > ContextWidth;
      // `relativeEnd + ContextWidth` characters of that line, "..." included, are kept
      var hi := if cutRight then lo + relativeEnd + ContextWidth - prefix else lineEnd;
      var column := if cutLeft then |Ellipsis| + ContextWidth else relativeStart;
      Excerpt(cutLeft, s[lo..hi], cutRight, column, end - start)
  }

  lemma {:induction false} LineStartAsWrittenOnOneLine(s: string, i: nat)
    requires 1 <= i <= |s| && '\n' !in s
    ensures LineStartAsWritten(s, i) == 1
    decreases i
  {
    if i > 1 { LineStartAsWrittenOnOneLine(s, i - 1); }
  }

  /** An error on the first line, not at offset 0, never shows the input's first character:
      for `a'` the excerpt is `'` instead of `a'`. */
  lemma ExcerptAsWrittenDropsFirstCharacter()
    ensures Line(ExcerptAsWritten("a'", 1, 1)) == "'"
    ensures Line(ExcerptOf("a'", 1, 1)) == "a'"
  {
    assert LineStartAsWritten("a'", 1) == 1;
    assert LineStart("a'", 1) == 0;
    assert LineEnd("a'", 1) == 2 by { assert LineEnd("a'", 2) == 2; }
  }

  /** On one long line, an error `n` characters in keeps `n - 4` characters after the span,
      so the excerpt grows with `n` instead of staying within the bound `ExcerptOf` keeps. */
  lemma {:induction false} ExcerptAsWrittenUnbounded(n: nat)
    requires n > 2 * |Ellipsis| + 2 * ContextWidth - 22
    ensures var s := Repeat('x', 2 * n);
      && |Line(ExcerptAsWritten(s, n, n))| == n + 22
      && |Line(ExcerptAsWritten(s, n, n))| > 2 * |Ellipsis| + 2 * ContextWidth
      && |Line(ExcerptOf(s, n, n))| <= 2 * |Ellipsis| + 2 * ContextWidth
  {
    var s := Repeat('x', 2 * n);
    ExcerptMarksSpan(s, n, n);
    assert '\n' !in s;
    LineStartAsWrittenOnOneLine(s, n);
    EnclosingLine(s, n);
    assert LineEnd(s, n) == 2 * n;
  }
}
