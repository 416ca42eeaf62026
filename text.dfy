/** The Kotlin string operations the app uses: `isBlank`, `trim`, and the
    case-insensitive `equals` and `contains`. */
module Text {

  /** Kotlin's `Char.isWhitespace()` on the JVM: the control characters
      tab through carriage return and U+001C..U+001F, plus every space,
      line and paragraph separator of Unicode (no-break spaces included). */
  predicate IsWhitespace(c: char) {
    || ('\t' <= c <= '\r')
    || ('\U{1C}' <= c <= '\U{1F}')
    || c == ' ' || c == '\U{A0}' || c == '\U{1680}'
    || ('\U{2000}' <= c <= '\U{200A}')
    || c == '\U{2028}' || c == '\U{2029}' || c == '\U{202F}' || c == '\U{205F}' || c == '\U{3000}'
  }

  /** Kotlin's `isBlank()`: empty or only whitespace. */
  predicate IsBlank(s: string) {
    forall i :: 0 <= i < |s| ==> IsWhitespace(s[i])
  }

  /** Leading whitespace removed. */
  function TrimStart(s: string): (r: string)
    ensures |r| <= |s| && r == s[|s| - |r|..]
    ensures r == [] || !IsWhitespace(r[0])
    ensures IsBlank(s[..|s| - |r|])
    decreases |s|
  {
    if s != [] && IsWhitespace(s[0]) then TrimStart(s[1..]) else s
  }

  /** Trailing whitespace removed. */
  function TrimEnd(s: string): (r: string)
    ensures |r| <= |s| && r == s[..|r|]
    ensures r == [] || !IsWhitespace(r[|r| - 1])
    ensures IsBlank(s[|r|..])
    decreases |s|
  {
    if s != [] && IsWhitespace(s[|s| - 1]) then
      var r := TrimEnd(s[..|s| - 1]);
      assert s[..|s| - 1][..|r|] == s[..|r|];
      assert s[|r|..] == s[..|s| - 1][|r|..] + [s[|s| - 1]];
      r
    else s
  }

  /** How many whitespace characters `trim()` cuts from the front of `s`. */
  function LeadingWhitespace(s: string): (k: nat)
    ensures k <= |s| && IsBlank(s[..k])
  {
    |s| - |TrimStart(s)|
  }

  /** Kotlin's `trim()`; a string trims to nothing exactly when it is blank. */
  function Trim(s: string): (r: string)
    ensures |r| <= |s|
    ensures r == [] <==> IsBlank(s)
  {
    TrimEnd(TrimStart(s))
  }

  /** A trimmed string neither starts nor ends with whitespace. */
  lemma TrimHasNoOuterWhitespace(s: string)
    ensures Trim(s) != [] ==> !IsWhitespace(Trim(s)[0]) && !IsWhitespace(Trim(s)[|Trim(s)| - 1])
  {
    var t := TrimStart(s);
    assert Trim(s) != [] ==> Trim(s)[0] == t[0];
  }

  /** `trim()` keeps the block of `s` after its `LeadingWhitespace`, and only
      whitespace follows that block. */
  lemma TrimIsInnerBlock(s: string)
    ensures LeadingWhitespace(s) + |Trim(s)| <= |s|
    ensures Trim(s) == s[LeadingWhitespace(s)..LeadingWhitespace(s) + |Trim(s)|]
    ensures IsBlank(s[LeadingWhitespace(s) + |Trim(s)|..])
  {
    var t := TrimStart(s);
    var r := TrimEnd(t);
    SuffixSlices(s, |s| - |t|, |r|);
  }

  lemma SuffixSlices(s: string, k: nat, n: nat)
    requires k + n <= |s|
    ensures s[k..][..n] == s[k..k + n] && s[k..][n..] == s[k + n..]
  {
  }

  /** The number of UTF-16 code units of one character: two for a character
      beyond the Basic Multilingual Plane, which Java stores as a surrogate pair. */
  function Utf16Units(c: char): (n: nat)
    ensures n == if c as int > 0xFFFF then 2 else 1
  {
    if c as int > 0xFFFF then 2 else 1
  }

  /** Kotlin's `String.length`, which counts UTF-16 code units, not characters. */
  function Utf16Length(s: string): (n: nat)
    ensures |s| <= n <= 2 * |s|
  {
    UnitsBefore(s, |s|)
  }

  /** The UTF-16 code units of the first `k` characters of `s`. */
  function UnitsBefore(s: string, k: nat): (n: nat)
    requires k <= |s|
    ensures k <= n <= 2 * k
  {
    if k == 0 then 0 else UnitsBefore(s, k - 1) + Utf16Units(s[k - 1])
  }

  /** Text inside the Basic Multilingual Plane has one unit per character. */
  lemma {:induction false} Utf16LengthOfBmp(s: string)
    requires forall i :: 0 <= i < |s| ==> s[i] as int <= 0xFFFF
    ensures Utf16Length(s) == |s|
  {
    var k := 0;
    while k < |s|
      invariant k <= |s| && UnitsBefore(s, k) == k
    {
      k := k + 1;
    }
  }

  /** Text of supplementary characters only has two units per character. */
  lemma {:induction false} Utf16LengthOfSupplementary(s: string)
    requires forall i :: 0 <= i < |s| ==> s[i] as int > 0xFFFF
    ensures Utf16Length(s) == 2 * |s|
  {
    var k := 0;
    while k < |s|
      invariant k <= |s| && UnitsBefore(s, k) == 2 * k
    {
      k := k + 1;
    }
  }

  /** The case folding used by `ignoreCase`: the upper-case letters of
      Basic Latin and Latin-1 map to their lower-case forms. */
  function Fold(c: char): (d: char)
    ensures d == c || ('A' <= c <= 'Z') || ('\U{C0}' <= c <= '\U{DE}')
  {
    if 'A' <= c <= 'Z' || ('\U{C0}' <= c <= '\U{DE}' && c != '\U{D7}')
    then (c as int + 32) as char
    else c
  }

  function Lower(s: string): (r: string)
    ensures |r| == |s|
  {
    seq(|s|, i requires 0 <= i < |s| => Fold(s[i]))
  }

  predicate StartsWith(s: string, prefix: string) {
    |prefix| <= |s| && s[..|prefix|] == prefix
  }

  /** `sub` occurs in `s` as a contiguous block. */
  predicate Contains(s: string, sub: string)
    decreases |s|
  {
    StartsWith(s, sub) || (s != [] && Contains(s[1..], sub))
  }

  /** Kotlin's `contains(sub, ignoreCase = true)`. */
  predicate ContainsIgnoreCase(s: string, sub: string) {
    Contains(Lower(s), Lower(sub))
  }

  /** Kotlin's `equals(other, ignoreCase = true)`. */
  predicate EqualsIgnoreCase(a: string, b: string) {
    Lower(a) == Lower(b)
  }

  /** Every string contains the empty string. */
  lemma ContainsEmpty(s: string)
    ensures Contains(s, "")
  {
  }
}
