/** Text handling shared by the resolvers and the text searches: the `_norm`
    helper every query class defines (Python's `str.strip()` followed by
    "empty means absent") and Cypher's case-insensitive comparisons
    (`toLower(a) = toLower(b)` and `toLower(a) CONTAINS toLower(b)`). */
module Text {
  import opened Common

  /** The characters Python's `str.isspace()` accepts, which `str.strip()` removes. */
  const WHITESPACE: set<char> := {
    ' ', '\t', '\n', '\U{b}', '\U{c}', '\r', '\U{1c}', '\U{1d}', '\U{1e}', '\U{1f}',
    '\U{85}', '\U{a0}', '\U{1680}', '\U{2000}', '\U{2001}', '\U{2002}', '\U{2003}', '\U{2004}',
    '\U{2005}', '\U{2006}', '\U{2007}', '\U{2008}', '\U{2009}', '\U{200a}', '\U{2028}', '\U{2029}',
    '\U{202f}', '\U{205f}', '\U{3000}'}

  predicate IsSpace(c: char) {
    c in WHITESPACE
  }

  /** Every character of s[lo..hi] is whitespace. */
  predicate SpaceBetween(s: string, lo: int, hi: int) {
    forall i :: lo <= i < hi && 0 <= i < |s| ==> IsSpace(s[i])
  }

  predicate AllSpace(s: string) {
    SpaceBetween(s, 0, |s|)
  }

  /** The first index at or after i that is not whitespace (|s| if none). */
  function SkipSpace(s: string, i: nat): (a: nat)
    requires i <= |s|
    ensures i <= a <= |s| && SpaceBetween(s, i, a)
    ensures a == |s| || !IsSpace(s[a])
    decreases |s| - i
  {
    if i == |s| || !IsSpace(s[i]) then i else SkipSpace(s, i + 1)
  }

  /** Scanning back from j, no further than lo: the end of the last
      non-whitespace character (lo if none). */
  function SkipSpaceBack(s: string, lo: nat, j: nat): (b: nat)
    requires lo <= j <= |s|
    ensures lo <= b <= j && SpaceBetween(s, b, j)
    ensures b == lo || !IsSpace(s[b - 1])
  {
    if j == lo || !IsSpace(s[j - 1]) then j else SkipSpaceBack(s, lo, j - 1)
  }

  /** Where the text `strip()` keeps begins. */
  function StripStart(s: string): nat
    ensures StripStart(s) <= |s|
  {
    SkipSpace(s, 0)
  }

  /** Python's `str.strip()`: s[a..b] for the first non-whitespace index a
      and the end b of the last non-whitespace character. */
  function Strip(s: string): (r: string)
    ensures StripStart(s) + |r| <= |s|
    ensures r == [] <==> AllSpace(s)
    ensures r != [] ==> !IsSpace(r[0]) && !IsSpace(r[|r| - 1])
  {
    var a := SkipSpace(s, 0);
    var b := SkipSpaceBack(s, a, |s|);
    assert b > a ==> s[a..b][0] == s[a] && s[a..b][b - a - 1] == s[b - 1];
    s[a..b]
  }

  /** `strip()` cuts off whitespace only: what is removed on either side of the
      kept middle slice is all whitespace. Together with Strip's own contract
      (the kept slice neither starts nor ends with whitespace) this pins the
      result down completely. */
  lemma StripIsSlice(s: string)
    ensures var a := StripStart(s); var r := Strip(s);
      r == s[a..a + |r|] && SpaceBetween(s, 0, a) && SpaceBetween(s, a + |r|, |s|)
  {
  }

  /** `_norm`: None stays None; otherwise the stripped text, or None when
      nothing but whitespace was given. */
  function Norm(v: Option<string>): (r: Option<string>)
    ensures v.None? ==> r.None?
    ensures v.Some? ==> (r.None? <==> AllSpace(v.value))
    ensures r.Some? ==> r.value != [] && !IsSpace(r.value[0]) && !IsSpace(r.value[|r.value| - 1])
  {
    match v
    case None => None
    case Some(s) =>
      var t := Strip(s);
      if t == [] then None else Some(t)
  }

  /** What `_norm` keeps is the input with surrounding whitespace cut off. */
  lemma NormIsStrippedInput(s: string)
    requires Norm(Some(s)).Some?
    ensures var t := Norm(Some(s)).value; var a := StripStart(s);
      a + |t| <= |s| && t == s[a..a + |t|] && SpaceBetween(s, 0, a) && SpaceBetween(s, a + |t|, |s|)
  {
    StripIsSlice(s);
  }

  /** A string that already neither starts nor ends with whitespace is left
      as it is by `strip()`. */
  lemma StripOfTrimmed(s: string)
    requires s == [] || (!IsSpace(s[0]) && !IsSpace(s[|s| - 1]))
    ensures Strip(s) == s
  {
    assert s[0..|s|] == s;
  }

  /** `_norm` is idempotent. */
  lemma NormIdempotent(v: Option<string>)
    ensures Norm(Norm(v)) == Norm(v)
  {
    if Norm(v).Some? {
      StripOfTrimmed(Norm(v).value);
    }
  }

  /** `_norm` leaves exactly the non-empty strings without surrounding
      whitespace unchanged. */
  lemma NormFixedPoints(s: string)
    ensures Norm(Some(s)) == Some(s) <==> s != [] && !IsSpace(s[0]) && !IsSpace(s[|s| - 1])
  {
    if s != [] && !IsSpace(s[0]) && !IsSpace(s[|s| - 1]) {
      StripOfTrimmed(s);
    }
  }
  /** Cypher `toLower`, on the ASCII letters. */
  function LowerChar(c: char): char {
    if 'A' <= c <= 'Z' then (c as int + 32) as char else c
  }

  function Lower(s: string): string {
    seq(|s|, i requires 0 <= i < |s| => LowerChar(s[i]))
  }

  /** Cypher `hay CONTAINS needle`. */
  predicate Contains(hay: string, needle: string) {
    exists i | 0 <= i <= |hay| - |needle| :: OccursAt(hay, needle, i)
  }

  predicate OccursAt(hay: string, needle: string, i: int) {
    0 <= i <= |hay| - |needle| && hay[i..i + |needle|] == needle
  }

  /** `toLower(hay) CONTAINS toLower(needle)`. */
  predicate CiContains(hay: string, needle: string) {
    Contains(Lower(hay), Lower(needle))
  }

  /** `toLower(a) = toLower(b)`. */
  predicate CiEquals(a: string, b: string) {
    Lower(a) == Lower(b)
  }

  /** Case-insensitive equality is the special case of case-insensitive
      containment where the needle is the whole text. */
  lemma CiEqualsImpliesCiContains(a: string, b: string)
    requires CiEquals(a, b)
    ensures CiContains(a, b)
  {
    assert OccursAt(Lower(a), Lower(b), 0);
  }
}
