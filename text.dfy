// The parts of .NET's string and char library that the bot relies on:
// `char.IsWhiteSpace`, `char.IsLetter`, `char.IsControl`, invariant case mapping,
// `Trim`, `Contains`, `StartsWith`, `EndsWith` and `Replace`.

module Text {

  // ---------------------------------------------------------------------------
  // Character classes
  // ---------------------------------------------------------------------------

  /** `char.IsWhiteSpace`, which is also the set the regex class `\s` matches. */
  predicate IsWhiteSpace(c: char) {
    ('\t' <= c <= '\r') || c == ' ' || c == '\U{85}' || c == '\U{A0}' || c == '\U{1680}'
    || ('\U{2000}' <= c <= '\U{200A}') || c == '\U{2028}' || c == '\U{2029}'
    || c == '\U{202F}' || c == '\U{205F}' || c == '\U{3000}'
  }

  /** `char.IsControl`: the C0 and C1 control ranges. */
  predicate IsControl(c: char) {
    c <= '\U{1F}' || ('\U{7F}' <= c <= '\U{9F}')
  }

  predicate IsAsciiUpper(c: char) { 'A' <= c <= 'Z' }
  predicate IsAsciiLower(c: char) { 'a' <= c <= 'z' }
  predicate IsAsciiLetter(c: char) { IsAsciiUpper(c) || IsAsciiLower(c) }
  predicate IsAsciiDigit(c: char) { '0' <= c <= '9' }

  /**
   * `char.IsLetter` and the regex class `\p{L}`, over the Latin blocks
   * (Basic Latin, Latin-1, Latin Extended-A and -B).
   */
  predicate IsLetter(c: char) {
    IsAsciiLetter(c) || c == '\U{AA}' || c == '\U{B5}' || c == '\U{BA}'
    || ('\U{C0}' <= c <= '\U{24F}' && c != '\U{D7}' && c != '\U{F7}')
  }

  /** The regex class `\w`, as modelled: letters, ASCII digits and `_` (no marks, no other connectors, no non-ASCII digits). */
  predicate IsWordChar(c: char) {
    IsLetter(c) || IsAsciiDigit(c) || c == '_'
  }

  // ---------------------------------------------------------------------------
  // Invariant case mapping
  // ---------------------------------------------------------------------------

  predicate IsLatin1Upper(c: char) { '\U{C0}' <= c <= '\U{DE}' && c != '\U{D7}' }
  predicate IsLatin1Lower(c: char) { '\U{E0}' <= c <= '\U{FE}' && c != '\U{F7}' }

  /** `char.ToLowerInvariant` over ASCII and Latin-1 (plus the capital of `ÿ`). */
  function ToLowerChar(c: char): char {
    if IsAsciiUpper(c) || IsLatin1Upper(c) then (c as int + 32) as char
    else if c == '\U{178}' then '\U{FF}'
    else c
  }

  /** `char.ToUpperInvariant` over ASCII and Latin-1. */
  function ToUpperChar(c: char): char {
    if IsAsciiLower(c) || IsLatin1Lower(c) then (c as int - 32) as char
    else if c == '\U{FF}' then '\U{178}'
    else if c == '\U{B5}' then '\U{39C}'
    else c
  }

  lemma LowerCharFacts(c: char)
    ensures ToLowerChar(ToLowerChar(c)) == ToLowerChar(c)
    ensures IsWhiteSpace(ToLowerChar(c)) <==> IsWhiteSpace(c)
    ensures IsAsciiLetter(ToLowerChar(c)) <==> IsAsciiLetter(c)
    ensures IsAsciiDigit(ToLowerChar(c)) <==> IsAsciiDigit(c)
    ensures ToLowerChar(c) == c <==> !(IsAsciiUpper(c) || IsLatin1Upper(c) || c == '\U{178}')
  {
  }

  /** `string.ToLowerInvariant`. */
  function Lower(s: string): (r: string)
    ensures |r| == |s|
    ensures forall i :: 0 <= i < |s| ==> r[i] == ToLowerChar(s[i])
  {
    seq(|s|, i requires 0 <= i < |s| => ToLowerChar(s[i]))
  }

  /** `string.ToUpperInvariant` (and, in this model, the culture-sensitive `ToUpper`). */
  function Upper(s: string): (r: string)
    ensures |r| == |s|
    ensures forall i :: 0 <= i < |s| ==> r[i] == ToUpperChar(s[i])
  {
    seq(|s|, i requires 0 <= i < |s| => ToUpperChar(s[i]))
  }

  /** Case-folding distributes over concatenation. */
  lemma LowerAppend(a: string, b: string)
    ensures Lower(a + b) == Lower(a) + Lower(b)
  {
  }

  lemma LowerIdempotent(s: string)
    ensures Lower(Lower(s)) == Lower(s)
  {
    forall i | 0 <= i < |s| ensures Lower(Lower(s))[i] == Lower(s)[i] {
      LowerCharFacts(s[i]);
    }
  }

  /** A string with no upper-case letter is its own lower-case form. */
  lemma LowerOfLower(s: string)
    requires forall i :: 0 <= i < |s| ==> !(IsAsciiUpper(s[i]) || IsLatin1Upper(s[i]) || s[i] == '\U{178}')
    ensures Lower(s) == s
  {
  }

  // ---------------------------------------------------------------------------
  // Trimming
  // ---------------------------------------------------------------------------

  /** `string.IsNullOrWhiteSpace` for a non-null string. */
  predicate IsBlank(s: string) {
    forall i :: 0 <= i < |s| ==> IsWhiteSpace(s[i])
  }

  /** The first index at or after `j` that is not white space, or `|s|`. */
  function SkipSpace(s: string, j: nat): (k: nat)
    requires j <= |s|
    ensures j <= k <= |s|
    ensures forall i :: j <= i < k ==> IsWhiteSpace(s[i])
    ensures k == |s| || !IsWhiteSpace(s[k])
    decreases |s| - j
  {
    if j < |s| && IsWhiteSpace(s[j]) then SkipSpace(s, j + 1) else j
  }

  /** The end of `s[..k]` once its trailing white space after `lo` is dropped. */
  function SkipSpaceBack(s: string, lo: nat, k: nat): (e: nat)
    requires lo <= k <= |s|
    ensures lo <= e <= k
    ensures forall i :: e <= i < k ==> IsWhiteSpace(s[i])
    ensures e == lo || !IsWhiteSpace(s[e - 1])
    ensures lo < k && !IsWhiteSpace(s[lo]) ==> lo < e
    decreases k
  {
    if lo < k && IsWhiteSpace(s[k - 1]) then SkipSpaceBack(s, lo, k - 1) else k
  }

  /**
   * `string.Trim()`: the slice of `s` left after removing leading and trailing
   * white space; it neither starts nor ends with white space.
   */
  function Trim(s: string): (r: string)
    ensures |r| <= |s|
    ensures r == [] || (!IsWhiteSpace(r[0]) && !IsWhiteSpace(r[|r| - 1]))
    ensures exists a, e :: 0 <= a <= e <= |s| && r == s[a..e] && IsBlank(s[..a]) && IsBlank(s[e..])
  {
    var a := SkipSpace(s, 0);
    var e := SkipSpaceBack(s, a, |s|);
    assert IsBlank(s[..a]) && IsBlank(s[e..]);
    s[a..e]
  }

  /** A string that neither starts nor ends with white space is its own trim. */
  lemma TrimOfTrimmed(s: string)
    requires s == [] || (!IsWhiteSpace(s[0]) && !IsWhiteSpace(s[|s| - 1]))
    ensures Trim(s) == s
  {
  }

  lemma TrimIdempotent(s: string)
    ensures Trim(Trim(s)) == Trim(s)
  {
    TrimOfTrimmed(Trim(s));
  }

  /** Trimming leaves nothing exactly when the string is blank. */
  lemma TrimEmptyIffBlank(s: string)
    ensures Trim(s) == [] <==> IsBlank(s)
  {
  }

  /** Lower-casing a trimmed string leaves it trimmed. */
  lemma TrimLower(s: string)
    requires Trim(s) == s
    ensures Trim(Lower(s)) == Lower(s)
  {
    if s != [] {
      LowerCharFacts(s[0]);
      LowerCharFacts(s[|s| - 1]);
    }
    TrimOfTrimmed(Lower(s));
  }

  // ---------------------------------------------------------------------------
  // Searching
  // ---------------------------------------------------------------------------

  /** `sub` occurs in `s` starting at index `i`. */
  predicate OccursAt(s: string, sub: string, i: int) {
    0 <= i && i + |sub| <= |s| && s[i..i + |sub|] == sub
  }

  /** Ordinal `string.Contains`. */
  predicate Contains(s: string, sub: string) {
    exists i | 0 <= i <= |s| - |sub| :: OccursAt(s, sub, i)
  }

  /** Ordinal `string.StartsWith`. */
  predicate StartsWith(s: string, prefix: string) {
    |prefix| <= |s| && s[..|prefix|] == prefix
  }

  /** `string.EndsWith`. */
  predicate EndsWith(s: string, suffix: string) {
    |suffix| <= |s| && s[|s| - |suffix|..] == suffix
  }

  /** A witness index is enough to establish `Contains`. */
  lemma ContainsAt(s: string, sub: string, i: int)
    requires OccursAt(s, sub, i)
    ensures Contains(s, sub)
  {
  }

  /** Anything found in a part is found in the whole. */
  lemma ContainsInfix(a: string, b: string, c: string, sub: string)
    requires Contains(b, sub)
    ensures Contains(a + b + c, sub)
  {
    var i :| 0 <= i <= |b| - |sub| && OccursAt(b, sub, i);
    assert (a + b + c)[|a| + i..|a| + i + |sub|] == b[i..i + |sub|];
    ContainsAt(a + b + c, sub, |a| + i);
  }

  /** Where `a + b` is found, both `a` and `b` are found. */
  lemma ContainsParts(s: string, a: string, b: string)
    requires Contains(s, a + b)
    ensures Contains(s, a) && Contains(s, b)
  {
    var i :| 0 <= i <= |s| - |a + b| && OccursAt(s, a + b, i);
    assert s[i..i + |a|] == (a + b)[..|a|] == a;
    assert s[i + |a|..i + |a| + |b|] == (a + b)[|a|..] == b;
    ContainsAt(s, a, i);
    ContainsAt(s, b, i + |a|);
  }

  /** `string.Equals(s, t, StringComparison.OrdinalIgnoreCase)`. */
  predicate EqualsIgnoreCase(s: string, t: string) {
    |s| == |t| && forall i :: 0 <= i < |s| ==> ToUpperChar(s[i]) == ToUpperChar(t[i])
  }

  // ---------------------------------------------------------------------------
  // Replacing
  // ---------------------------------------------------------------------------

  /** Ordinal `string.Replace(pattern, replacement)`: every occurrence, left to right. */
  function ReplaceAll(s: string, pattern: string, replacement: string): string
    requires pattern != []
    decreases |s|
  {
    if |s| < |pattern| then s
    else if s[..|pattern|] == pattern then replacement + ReplaceAll(s[|pattern|..], pattern, replacement)
    else [s[0]] + ReplaceAll(s[1..], pattern, replacement)
  }

  /**
   * Replacing in `prefix + pattern`, where no character of `prefix` starts the
   * pattern, replaces only the trailing pattern.
   */
  lemma {:induction false} ReplaceAfterPrefix(prefix: string, pattern: string, replacement: string)
    requires pattern != []
    requires forall i :: 0 <= i < |prefix| ==> prefix[i] != pattern[0]
    ensures ReplaceAll(prefix + pattern, pattern, replacement) == prefix + replacement
    decreases |prefix|
  {
    var s := prefix + pattern;
    if prefix == [] {
      assert s == pattern && s[..|pattern|] == pattern && s[|pattern|..] == [];
    } else {
      var rest := prefix[1..];
      assert s[..|pattern|][0] == prefix[0];
      assert s[1..] == rest + pattern;
      ReplaceAfterPrefix(rest, pattern, replacement);
      calc {
        ReplaceAll(s, pattern, replacement);
        [prefix[0]] + ReplaceAll(rest + pattern, pattern, replacement);
        [prefix[0]] + (rest + replacement);
        { assert prefix == [prefix[0]] + rest; }
        prefix + replacement;
      }
    }
  }

  /**
   * When the pattern starts with a character that occurs in `s` only where the
   * pattern ends `s`, replacing all occurrences is replacing that suffix.
   */
  lemma ReplaceUniqueSuffix(s: string, pattern: string, replacement: string)
    requires pattern != [] && EndsWith(s, pattern)
    requires forall i :: 0 <= i < |s| - |pattern| ==> s[i] != pattern[0]
    ensures ReplaceAll(s, pattern, replacement) == s[..|s| - |pattern|] + replacement
  {
    var prefix := s[..|s| - |pattern|];
    assert s == prefix + pattern;
    ReplaceAfterPrefix(prefix, pattern, replacement);
  }
}
