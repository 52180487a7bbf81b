/**
 * The character-level helpers behind the case-insensitive literal parser and the whitespace
 * skipper: .NET's char.IsWhiteSpace and char.ToLowerInvariant, the first-mismatch search,
 * and where a run of whitespace ends.
 */
module Text {
  /**
   * char.IsWhiteSpace: the space separators U+0020, U+00A0, U+1680, U+2000 to U+200A, U+202F,
   * U+205F and U+3000, the line separator U+2028, the paragraph separator U+2029, and the
   * controls U+0009 to U+000D and U+0085.
   */
  predicate IsWhiteSpace(c: char)
  {
    || c == ' ' || ('\t' <= c <= '\r') || c == '\U{85}' || c == '\U{A0}' || c == '\U{1680}'
    || ('\U{2000}' <= c <= '\U{200A}') || c == '\U{2028}' || c == '\U{2029}' || c == '\U{202F}'
    || c == '\U{205F}' || c == '\U{3000}'
  }

  /** char.ToLowerInvariant on the ASCII letters; every other character maps to itself. */
  function ToLowerInvariant(c: char): (r: char)
    ensures 'A' <= c <= 'Z' ==> r as int == c as int + 32
    ensures !('A' <= c <= 'Z') ==> r == c
  {
    if 'A' <= c <= 'Z' then (c as int + 32) as char else c
  }

  /** Two characters are equal once both are lower-cased. */
  predicate SameIgnoringCase(a: char, b: char)
  {
    ToLowerInvariant(a) == ToLowerInvariant(b)
  }

  /**
   * The index of the first position from `k` on where `span` and `value` differ ignoring case,
   * or -1 when they agree on all of `span`.
   */
  function MismatchFrom(span: seq<char>, value: seq<char>, k: nat): (i: int)
    requires |span| <= |value| && k <= |span|
    ensures -1 <= i < |span|
    ensures i == -1 ==> forall j :: k <= j < |span| ==> SameIgnoringCase(span[j], value[j])
    ensures i != -1 ==> k <= i && !SameIgnoringCase(span[i], value[i])
    ensures i != -1 ==> forall j :: k <= j < i ==> SameIgnoringCase(span[j], value[j])
    decreases |span| - k
  {
    if k == |span| then -1
    else if !SameIgnoringCase(span[k], value[k]) then k
    else MismatchFrom(span, value, k + 1)
  }

  /** The first position from `k` on that does not hold whitespace, or the end of the input. */
  function WhitespaceEnd(input: seq<char>, k: nat): (e: nat)
    requires k <= |input|
    ensures k <= e <= |input|
    ensures forall j :: k <= j < e ==> IsWhiteSpace(input[j])
    ensures e == |input| || !IsWhiteSpace(input[e])
    decreases |input| - k
  {
    if k == |input| then k
    else if !IsWhiteSpace(input[k]) then k
    else WhitespaceEnd(input, k + 1)
  }

  /** A run of whitespace followed by a non-whitespace character or the end ends exactly there. */
  lemma {:induction false} WhitespaceEndUnique(input: seq<char>, k: nat, e: nat)
    requires k <= e <= |input|
    requires forall j :: k <= j < e ==> IsWhiteSpace(input[j])
    requires e == |input| || !IsWhiteSpace(input[e])
    ensures WhitespaceEnd(input, k) == e
    decreases e - k
  {
    if k < e {
      WhitespaceEndUnique(input, k + 1, e);
    }
  }
}
