/** The .NET character and string primitives the scanner and the member resolution rely on:
    `char.IsWhiteSpace`, `char.IsLetter`, `char.IsNumber`, the invariant case mapping behind
    `StringComparison.OrdinalIgnoreCase`, and `string.ToLower`.
    Classification is exact for U+0000..U+00FF (ASCII and Latin-1 Supplement); characters above
    U+00FF are classified as neither white space, letter nor number and have no case mapping. */
module Chars {

  predicate IsWhiteSpace(c: char) {
    '\t' <= c <= '\r' || c == ' ' || c == '\U{85}' || c == '\U{A0}'
  }

  predicate IsLetter(c: char) {
    || 'A' <= c <= 'Z' || 'a' <= c <= 'z'
    || c == '\U{AA}' || c == '\U{B5}' || c == '\U{BA}'
    || '\U{C0}' <= c <= '\U{D6}' || '\U{D8}' <= c <= '\U{F6}' || '\U{F8}' <= c <= '\U{FF}'
  }

  /** Decimal digits, superscripts and vulgar fractions are all numbers to .NET. */
  predicate IsNumber(c: char) {
    IsAsciiDigit(c) || c == '\U{B2}' || c == '\U{B3}' || c == '\U{B9}' || '\U{BC}' <= c <= '\U{BE}'
  }

  /** The only digits `int.Parse` and `double.Parse` accept. */
  predicate IsAsciiDigit(c: char) {
    '0' <= c <= '9'
  }

  function DigitValue(c: char): (d: nat)
    requires IsAsciiDigit(c)
    ensures d < 10
  {
    c as int - '0' as int
  }

  /** Simple upper-case mapping of the invariant culture. */
  function ToUpper(c: char): (u: char)
    ensures !IsLetter(c) ==> u == c
    ensures IsLetter(c) ==> IsLetter(u) || u == '\U{178}' || u == '\U{39C}'
  {
    if 'a' <= c <= 'z' || ('\U{E0}' <= c <= '\U{FE}' && c != '\U{F7}') then (c as int - 32) as char
    else if c == '\U{FF}' then '\U{178}'
    else if c == '\U{B5}' then '\U{39C}'
    else c
  }

  /** Simple lower-case mapping of the invariant culture. */
  function ToLower(c: char): (l: char)
    ensures !IsLetter(c) ==> l == c
    ensures IsLetter(c) ==> IsLetter(l)
  {
    if 'A' <= c <= 'Z' || ('\U{C0}' <= c <= '\U{DE}' && c != '\U{D7}') then (c as int + 32) as char
    else c
  }

  function ToLowerString(s: string): (r: string)
    ensures |r| == |s|
    ensures forall i :: 0 <= i < |s| ==> r[i] == ToLower(s[i])
  {
    seq(|s|, i requires 0 <= i < |s| => ToLower(s[i]))
  }

  /** `a.Equals(b, StringComparison.OrdinalIgnoreCase)`. */
  predicate EqualsIgnoreCase(a: string, b: string) {
    |a| == |b| && forall i :: 0 <= i < |a| ==> ToUpper(a[i]) == ToUpper(b[i])
  }

  /** `s.StartsWith(prefix, StringComparison.OrdinalIgnoreCase)`. */
  predicate StartsWithIgnoreCase(s: string, prefix: string) {
    |prefix| <= |s| && EqualsIgnoreCase(s[..|prefix|], prefix)
  }

  /** A lower-case ASCII letter is what `c` lowers to exactly when `c` is that letter in either case. */
  lemma LowerLetterCase(l: char, c: char)
    requires 'a' <= l <= 'z'
    ensures ToLower(c) == l <==> ToUpper(l) == ToUpper(c)
  {
  }

  /** `word.ToLower() == keyword` for a lower-case ASCII keyword is the ordinal comparison of
      the two ignoring case. */
  lemma LowerCaseMatch(keyword: string, word: string)
    requires forall k :: 0 <= k < |keyword| ==> 'a' <= keyword[k] <= 'z'
    ensures ToLowerString(word) == keyword <==> EqualsIgnoreCase(keyword, word)
  {
    if |word| == |keyword| {
      forall k | 0 <= k < |word|
        ensures ToLowerString(word)[k] == keyword[k] <==> ToUpper(keyword[k]) == ToUpper(word[k])
      {
        LowerLetterCase(keyword[k], word[k]);
      }
      if EqualsIgnoreCase(keyword, word) {
        assert forall k :: 0 <= k < |word| ==> ToLowerString(word)[k] == keyword[k];
      }
    }
  }

  lemma EqualsIgnoreCaseIsPrefix(s: string, prefix: string)
    requires EqualsIgnoreCase(s, prefix)
    ensures StartsWithIgnoreCase(s, prefix)
  {
    assert s[..|prefix|] == s;
  }
}
