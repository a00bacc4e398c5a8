/** The string operations the system relies on: Python's `str.strip()`,
    JavaScript's ASCII `toLowerCase()` and `String.prototype.includes`, and
    decimal rendering of integers for f-string error details. */
module Text {

  /** Python's `str.isspace()` for one character: the characters with
      bidirectional class WS, B or S, or general category Zs. */
  predicate IsSpace(c: char) {
    || ('\t' <= c <= '\r')
    || ('\U{1C}' <= c <= '\U{1F}')
    || c == ' ' || c == '\U{85}' || c == '\U{A0}' || c == '\U{1680}'
    || ('\U{2000}' <= c <= '\U{200A}')
    || c == '\U{2028}' || c == '\U{2029}' || c == '\U{202F}' || c == '\U{205F}'
    || c == '\U{3000}'
  }

  /** Every character is whitespace (the empty string included). */
  predicate IsBlank(s: string) {
    forall i :: 0 <= i < |s| ==> IsSpace(s[i])
  }

  function TrimStart(s: string): string
    decreases |s|
  {
    if |s| > 0 && IsSpace(s[0]) then TrimStart(s[1..]) else s
  }

  function TrimEnd(s: string): string
    decreases |s|
  {
    if |s| > 0 && IsSpace(s[|s| - 1]) then TrimEnd(s[..|s| - 1]) else s
  }

  /** Python's `s.strip()`: leading and trailing whitespace removed. */
  function Strip(s: string): string {
    TrimEnd(TrimStart(s))
  }

  /** `TrimStart` removes exactly a whitespace prefix: what remains is a
      suffix of the input that is empty or starts with a non-space. */
  lemma {:induction false} TrimStartSpec(s: string)
    ensures var t := TrimStart(s);
            |t| <= |s| && t == s[|s| - |t|..] && IsBlank(s[..|s| - |t|])
            && (|t| == 0 || !IsSpace(t[0]))
    decreases |s|
  {
    if |s| > 0 && IsSpace(s[0]) {
      TrimStartSpec(s[1..]);
      var t := TrimStart(s[1..]);
      assert s[1..][..|s[1..]| - |t|] == s[1..|s| - |t|];
      assert s[1..][|s[1..]| - |t|..] == s[|s| - |t|..];
    }
  }

  /** `TrimEnd` of a string starting with a non-space keeps that character. */
  lemma {:induction false} TrimEndKeepsNonSpaceHead(s: string)
    requires |s| > 0 && !IsSpace(s[0])
    ensures |TrimEnd(s)| > 0
    decreases |s|
  {
    if IsSpace(s[|s| - 1]) {
      TrimEndKeepsNonSpaceHead(s[..|s| - 1]);
    }
  }

  /** `len(s.strip()) == 0` holds exactly for the blank strings. */
  lemma StripEmptyIffBlank(s: string)
    ensures |Strip(s)| == 0 <==> IsBlank(s)
  {
    TrimStartSpec(s);
    var t := TrimStart(s);
    if |t| == 0 {
      assert s[..|s|] == s;
    } else {
      TrimEndKeepsNonSpaceHead(t);
      assert t[0] == s[|s| - |t|];
    }
  }

  /** ASCII lower-casing of one character. */
  function LowerChar(c: char): char {
    if 'A' <= c <= 'Z' then (c as int + 32) as char else c
  }

  /** JavaScript's `toLowerCase()`, restricted to ASCII letters. */
  function Lower(s: string): string {
    seq(|s|, i requires 0 <= i < |s| => LowerChar(s[i]))
  }

  /** `needle` occurs in `hay` at position `i`. */
  ghost predicate OccursAt(hay: string, needle: string, i: int) {
    0 <= i && i + |needle| <= |hay| && hay[i..i + |needle|] == needle
  }

  predicate StartsWith(s: string, prefix: string) {
    |prefix| <= |s| && s[..|prefix|] == prefix
  }

  /** JavaScript's `hay.includes(needle)`: a left-to-right scan. */
  function Includes(hay: string, needle: string): bool
    decreases |hay|
  {
    StartsWith(hay, needle) || (|hay| > 0 && Includes(hay[1..], needle))
  }

  /** The scan answers yes exactly when there is an occurrence. */
  lemma {:induction false} IncludesIffOccurs(hay: string, needle: string)
    ensures Includes(hay, needle) <==> exists i :: OccursAt(hay, needle, i)
    decreases |hay|
  {
    if StartsWith(hay, needle) {
      assert OccursAt(hay, needle, 0);
    } else if |hay| == 0 {
    } else {
      IncludesIffOccurs(hay[1..], needle);
      if Includes(hay[1..], needle) {
        var i :| OccursAt(hay[1..], needle, i);
        assert hay[1..][i..i + |needle|] == hay[i + 1..i + 1 + |needle|];
        assert OccursAt(hay, needle, i + 1);
      }
      if exists i :: OccursAt(hay, needle, i) {
        var i :| OccursAt(hay, needle, i);
        assert i != 0;
        assert hay[1..][i - 1..i - 1 + |needle|] == hay[i..i + |needle|];
        assert OccursAt(hay[1..], needle, i - 1);
      }
    }
  }

  /** A needle whose first character appears at no feasible start
      position does not occur. */
  lemma NotIncludedByFirstChar(hay: string, needle: string)
    requires |needle| > 0
    requires forall i :: 0 <= i <= |hay| - |needle| ==> hay[i] != needle[0]
    ensures !Includes(hay, needle)
  {
    IncludesIffOccurs(hay, needle);
  }

  /** A needle longer than the text does not occur in it. */
  lemma LongerNotIncluded(hay: string, needle: string)
    requires |needle| > |hay|
    ensures !Includes(hay, needle)
  {
    IncludesIffOccurs(hay, needle);
  }

  /** Between strings of equal length, occurrence is equality. */
  lemma SameLengthIncludesIffEqual(hay: string, needle: string)
    requires |hay| == |needle|
    ensures Includes(hay, needle) <==> hay == needle
  {
    if |hay| > 0 {
      LongerNotIncluded(hay[1..], needle);
    }
  }

  /** The empty string occurs only in the empty string. */
  lemma IncludedInEmptyIffEmpty(needle: string)
    ensures Includes("", needle) <==> |needle| == 0
  {
  }

  function DigitChar(d: nat): char
    requires d < 10
  {
    "0123456789"[d]
  }

  /** Python's `str(n)` for a natural number. */
  function NatToString(n: nat): string
    decreases n
  {
    if n < 10 then [DigitChar(n)] else NatToString(n / 10) + [DigitChar(n % 10)]
  }

  /** Python's `str(i)` for an integer. */
  function IntToString(i: int): string {
    if i < 0 then "-" + NatToString(-i) else NatToString(i)
  }
}
