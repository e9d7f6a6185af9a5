/** The two string operations the outfit rules rely on: ASCII lower-casing
    (Python's `str.lower()` restricted to ASCII letters) and substring search
    (Python's `str.find`, which answers the lowest index or -1). */
module Text {

  predicate IsUpper(c: char) {
    'A' <= c <= 'Z'
  }

  /** Lower-case one character; only the ASCII letters A..Z change. */
  function LowerChar(c: char): (r: char)
    ensures !IsUpper(r)
    ensures IsUpper(c) ==> 'a' <= r <= 'z' && r as int - 'a' as int == c as int - 'A' as int
    ensures !IsUpper(c) ==> r == c
  {
    if IsUpper(c) then (c as int + 32) as char else c
  }

  /** ASCII lower-casing of a whole string: same length, each character
      lower-cased in place. */
  function Lower(s: string): (r: string)
    ensures |r| == |s|
    ensures forall i :: 0 <= i < |s| ==> r[i] == LowerChar(s[i])
  {
    if s == [] then [] else [LowerChar(s[0])] + Lower(s[1..])
  }

  /** Two strings that are equal once each character is lower-cased. */
  predicate SameIgnoringCase(a: string, b: string) {
    |a| == |b| && forall i :: 0 <= i < |a| ==> LowerChar(a[i]) == LowerChar(b[i])
  }

  /** Strings that differ only in the case of ASCII letters lower-case to the
      same string. */
  lemma LowerIgnoresCase(a: string, b: string)
    requires SameIgnoringCase(a, b)
    ensures Lower(a) == Lower(b)
  {
  }

  /** A string with no upper-case letter is its own lower-casing. */
  lemma LowerKeepsLowercase(s: string)
    requires forall i :: 0 <= i < |s| ==> !IsUpper(s[i])
    ensures Lower(s) == s
  {
  }

  /** `needle` occurs in `hay` starting at index `i`. */
  predicate OccursAt(hay: string, needle: string, i: int) {
    0 <= i && i + |needle| <= |hay| && hay[i..i + |needle|] == needle
  }

  /** Search for `needle` from index `from` onwards: the lowest index at or
      after `from` where it occurs, or -1 when there is none. */
  function FindFrom(hay: string, needle: string, from: nat): (r: int)
    requires from <= |hay|
    ensures r == -1 || (from <= r && OccursAt(hay, needle, r))
    ensures r == -1 ==> forall k :: from <= k ==> !OccursAt(hay, needle, k)
    ensures r != -1 ==> forall k :: from <= k < r ==> !OccursAt(hay, needle, k)
    decreases |hay| - from
  {
    if from + |needle| > |hay| then -1
    else if hay[from..from + |needle|] == needle then from
    else FindFrom(hay, needle, from + 1)
  }

  /** Python's `hay.find(needle)`: the lowest index where `needle` occurs, or
      -1 when it occurs nowhere (an empty needle is found at 0). */
  function Find(hay: string, needle: string): (r: int)
    ensures r == -1 <==> forall k :: !OccursAt(hay, needle, k)
    ensures r != -1 ==> OccursAt(hay, needle, r)
    ensures r != -1 ==> forall k :: 0 <= k < r ==> !OccursAt(hay, needle, k)
  {
    FindFrom(hay, needle, 0)
  }

  /** The test `hay.find(needle) != -1` that the rules use. */
  predicate Contains(hay: string, needle: string) {
    Find(hay, needle) != -1
  }

  /** A needle occurs in a string that ends with it. */
  lemma ContainsSuffix(prefix: string, needle: string)
    ensures Contains(prefix + needle, needle)
  {
    var hay := prefix + needle;
    assert hay[|prefix|..|prefix| + |needle|] == needle;
    assert OccursAt(hay, needle, |prefix|);
  }
}
