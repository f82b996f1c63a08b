/** The glob matcher `Like` of `SpecialBinaryOperatorFunctions.cs`: `*` stands for any run of
    characters, `?` for exactly one, every other pattern character for itself. The method fills
    the same boolean table as the source; `Cell` is the recurrence it fills in, and `Glob` an
    independent definition of what a pattern means. */
module GlobMatching {
  import opened Wrappers

  /** What a pattern means, from its last character back: a final `*` absorbs any suffix of
      the text, a final `?` exactly one character, anything else one equal character. */
  predicate Glob(text: string, pattern: string)
    decreases |pattern|
  {
    if pattern == [] then text == []
    else
      var c, rest := pattern[|pattern| - 1], pattern[..|pattern| - 1];
      if c == '*' then exists k :: 0 <= k <= |text| && Glob(text[..k], rest)
      else |text| > 0 && (c == '?' || c == text[|text| - 1]) && Glob(text[..|text| - 1], rest)
  }

  /** The value the fill leaves in `lookup[i, j]`: the corner is `true`, the first row follows
      the run of leading `*`, the first column is otherwise `false`, and every other cell is
      computed from its left, upper and upper-left neighbours. */
  function Cell(text: string, pattern: string, i: nat, j: nat): bool
    requires i <= |text| && j <= |pattern|
    decreases i + j
  {
    if i == 0 && j == 0 then true
    else if i == 0 then pattern[j - 1] == '*' && Cell(text, pattern, 0, j - 1)
    else if j == 0 then false
    else if pattern[j - 1] == '*' then Cell(text, pattern, i - 1, j) || Cell(text, pattern, i, j - 1)
    else if pattern[j - 1] == '?' || text[i - 1] == pattern[j - 1] then Cell(text, pattern, i - 1, j - 1)
    else false
  }

  /** Cell `(i, j)` holds exactly whether `text[..i]` matches `pattern[..j]`. */
  lemma {:induction false} CellIsGlob(text: string, pattern: string, i: nat, j: nat)
    requires i <= |text| && j <= |pattern|
    ensures Cell(text, pattern, i, j) == Glob(text[..i], pattern[..j])
    decreases i + j
  {
    var t, p := text[..i], pattern[..j];
    if j == 0 {
    } else if i == 0 && pattern[j - 1] == '*' {
      CellIsGlob(text, pattern, 0, j - 1);
      assert p[..|p| - 1] == pattern[..j - 1];
      assert t[..0] == t;
    } else if i == 0 {
      assert p[|p| - 1] == pattern[j - 1];
    } else if pattern[j - 1] == '*' {
      CellIsGlob(text, pattern, i - 1, j);
      CellIsGlob(text, pattern, i, j - 1);
      assert p[..|p| - 1] == pattern[..j - 1];
      StarAbsorbs(text, pattern, i, j);
    } else {
      CellIsGlob(text, pattern, i - 1, j - 1);
      assert p[..|p| - 1] == pattern[..j - 1];
      assert t[..|t| - 1] == text[..i - 1];
    }
  }

  /** A final `*` absorbs the last text character or nothing: the existential split of `Glob`
      is the choice between the upper and the left neighbour. */
  lemma StarAbsorbs(text: string, pattern: string, i: nat, j: nat)
    requires 0 < i <= |text| && 0 < j <= |pattern| && pattern[j - 1] == '*'
    ensures Glob(text[..i], pattern[..j])
      <==> Glob(text[..i - 1], pattern[..j]) || Glob(text[..i], pattern[..j - 1])
  {
    var t, t1, p, rest := text[..i], text[..i - 1], pattern[..j], pattern[..j - 1];
    assert p[..|p| - 1] == rest;
    assert t[..i] == t;
    forall k | 0 <= k <= i - 1
      ensures t1[..k] == t[..k]
    {
    }
    if Glob(t, p) {
      var k :| 0 <= k <= |t| && Glob(t[..k], rest);
      if k < i {
        assert Glob(t1[..k], rest);
      }
    }
  }

  /** The null-coalescing `?? ""`. */
  function OrEmpty(s: Option<string>): string {
    if s.Some? then s.value else ""
  }

  /** `Like(left, right)`: whether the text `left` matches the pattern `right`, each `null`
      read as the empty string. */
  method Like(left: Option<string>, right: Option<string>) returns (r: bool)
    ensures r == Glob(OrEmpty(left), OrEmpty(right))
  {
    var text, pattern := OrEmpty(left), OrEmpty(right);
    var lookup := new bool[|text| + 1, |pattern| + 1]((i, j) => false);
    lookup[0, 0] := true;
    FillFirstRow(lookup, text, pattern);
    FillRows(lookup, text, pattern);
    r := lookup[|text|, |pattern|];
    CellIsGlob(text, pattern, |text|, |pattern|);
    assert text[..|text|] == text && pattern[..|pattern|] == pattern;
  }

  /** The loop over the first row: a `*` carries the cell to its left along. */
  method FillFirstRow(lookup: array2<bool>, text: string, pattern: string)
    requires lookup.Length0 == |text| + 1 && lookup.Length1 == |pattern| + 1
    requires lookup[0, 0]
    requires forall i, j :: 0 <= i <= |text| && 0 <= j <= |pattern| && (i, j) != (0, 0) ==> !lookup[i, j]
    modifies lookup
    ensures forall j :: 0 <= j <= |pattern| ==> lookup[0, j] == Cell(text, pattern, 0, j)
    ensures forall i :: 1 <= i <= |text| ==> !lookup[i, 0]
  {
    for j := 1 to |pattern| + 1
      invariant lookup[0, 0]
      invariant forall jj :: 0 <= jj < j ==> lookup[0, jj] == Cell(text, pattern, 0, jj)
      invariant forall jj :: j <= jj <= |pattern| ==> !lookup[0, jj]
      invariant forall i :: 1 <= i <= |text| ==> !lookup[i, 0]
    {
      if pattern[j - 1] == '*' {
        lookup[0, j] := lookup[0, j - 1];
      }
    }
  }

  /** The nested loops over the other rows, each filled from left to right. */
  method FillRows(lookup: array2<bool>, text: string, pattern: string)
    requires lookup.Length0 == |text| + 1 && lookup.Length1 == |pattern| + 1
    requires forall j :: 0 <= j <= |pattern| ==> lookup[0, j] == Cell(text, pattern, 0, j)
    requires forall i :: 1 <= i <= |text| ==> !lookup[i, 0]
    modifies lookup
    ensures forall i, j :: 0 <= i <= |text| && 0 <= j <= |pattern| ==> lookup[i, j] == Cell(text, pattern, i, j)
  {
    for i := 1 to |text| + 1
      invariant forall ii, j :: 0 <= ii < i && 0 <= j <= |pattern| ==> lookup[ii, j] == Cell(text, pattern, ii, j)
      invariant forall ii :: i <= ii <= |text| ==> !lookup[ii, 0]
    {
      for j := 1 to |pattern| + 1
        invariant forall ii, jj :: 0 <= ii < i && 0 <= jj <= |pattern| ==> lookup[ii, jj] == Cell(text, pattern, ii, jj)
        invariant forall jj :: 0 <= jj < j ==> lookup[i, jj] == Cell(text, pattern, i, jj)
        invariant forall ii :: i < ii <= |text| ==> !lookup[ii, 0]
      {
        if pattern[j - 1] == '*' {
          lookup[i, j] := lookup[i - 1, j] || lookup[i, j - 1];
        } else if pattern[j - 1] == '?' || text[i - 1] == pattern[j - 1] {
          lookup[i, j] := lookup[i - 1, j - 1];
        } else {
          lookup[i, j] := false;
        }
      }
    }
  }

  // ------------------------------------------------------------------------------------
  // What a pattern matches.

  /** The empty text matches exactly the patterns made of `*` alone. */
  lemma {:induction false} EmptyTextMatches(pattern: string)
    ensures Glob("", pattern) <==> forall k :: 0 <= k < |pattern| ==> pattern[k] == '*'
    decreases |pattern|
  {
    if pattern != [] {
      var rest := pattern[..|pattern| - 1];
      EmptyTextMatches(rest);
      if pattern[|pattern| - 1] == '*' {
        assert ""[..0] == "";
      }
    }
  }

  /** A pattern without wildcards matches exactly the text equal to it. */
  lemma {:induction false} LiteralPattern(text: string, pattern: string)
    requires forall k :: 0 <= k < |pattern| ==> pattern[k] != '*' && pattern[k] != '?'
    ensures Glob(text, pattern) <==> text == pattern
    decreases |pattern|
  {
    if pattern != [] && text != [] {
      var t, p := text[..|text| - 1], pattern[..|pattern| - 1];
      LiteralPattern(t, p);
      assert text == t + [text[|text| - 1]] && pattern == p + [pattern[|pattern| - 1]];
      if text == pattern {
        assert t == p;
      }
    }
  }

  /** A pattern of `?` alone matches exactly the texts of its length. */
  lemma {:induction false} QuestionMarks(text: string, pattern: string)
    requires forall k :: 0 <= k < |pattern| ==> pattern[k] == '?'
    ensures Glob(text, pattern) <==> |text| == |pattern|
    decreases |pattern|
  {
    if pattern != [] && text != [] {
      QuestionMarks(text[..|text| - 1], pattern[..|pattern| - 1]);
    }
  }

  /** `*` matches every text. */
  lemma StarMatchesAll(text: string)
    ensures Glob(text, "*")
  {
    assert Glob(text[..0], "");
  }

  /** `x*` matches every text that starts with a match of `x`: a trailing `*` takes the rest. */
  lemma TrailingStar(text: string, pattern: string, k: nat)
    requires k <= |text| && Glob(text[..k], pattern)
    ensures Glob(text, pattern + "*")
  {
    assert (pattern + "*")[..|pattern|] == pattern;
  }

  /** Cases of the unit tests of `Like` with the empty text or `?` alone. */
  lemma EmptyAndQuestionExamples()
    ensures Glob("", "") && Glob("", "*") && Glob("", "*****") && !Glob("", "*a")
    ensures !Glob("", "?") && Glob("a", "?") && !Glob("aa", "?") && Glob("aa", "??")
  {
    EmptyTextMatches("*");
    EmptyTextMatches("*****");
    EmptyTextMatches("*a");
    QuestionMarks("", "?");
    QuestionMarks("a", "?");
    QuestionMarks("aa", "?");
    QuestionMarks("aa", "??");
  }

  /** `*a` and `a*` match `a`. */
  lemma StarAroundExamples()
    ensures Glob("a", "*a") && Glob("a", "a*")
  {
    assert "*a"[..1] == "*" && "a"[..0] == "";
    StarMatchesAll("");
    assert "a"[..1] == "a" && "a" + "*" == "a*";
    LiteralPattern("a", "a");
    TrailingStar("a", "a", 1);
  }

  /** `abc*` does not match `a`: no start of `a` is `abc`. */
  lemma LongerPrefixExample()
    ensures !Glob("a", "abc*")
  {
    assert "abc*"[..3] == "abc";
    forall k | 0 <= k <= 1
      ensures !Glob("a"[..k], "abc")
    {
      LiteralPattern("a"[..k], "abc");
    }
  }

  /** `a*c` matches `abbbbbbc`. */
  lemma StarInsideExample()
    ensures Glob("abbbbbbc", "a*c")
  {
    assert "a*c"[..2] == "a*" && "abbbbbbc"[..7] == "abbbbbb";
    assert "abbbbbb"[..1] == "a" && "a" + "*" == "a*";
    LiteralPattern("a", "a");
    TrailingStar("abbbbbb", "a", 1);
  }

  /** `bun*r` matches `bundlor`, `bun?r` does not: `?` takes exactly one character. */
  lemma BundlorExamples()
    ensures Glob("bundlor", "bun*r") && !Glob("bundlor", "bun?r")
  {
    assert "bun*r"[..4] == "bun*" && "bundlor"[..6] == "bundlo";
    assert "bundlo"[..3] == "bun" && "bun" + "*" == "bun*";
    LiteralPattern("bun", "bun");
    TrailingStar("bundlo", "bun", 3);
    assert "bun?r"[..4] == "bun?" && "bun?"[..3] == "bun" && "bundlo"[..5] == "bundl";
    LiteralPattern("bundl", "bun");
  }
}
