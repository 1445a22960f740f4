/**
 * The few Python string operations the bot relies on: `str.lower()` for the
 * case-insensitive duplicate check, `needle in haystack` for correlating a
 * live-game id with a match id, and `s.split('#')` unpacked into two names.
 */
module Text {
  import opened Common

  /** Lower-case mapping of one character (ASCII letters only). */
  function Lower(c: char): (r: char)
    ensures 'A' <= c <= 'Z' ==> 'a' <= r <= 'z' && r as int == c as int + 32
    ensures !('A' <= c <= 'Z') ==> r == c
  {
    if 'A' <= c <= 'Z' then (c as int + 32) as char else c
  }

  /** `s.lower()`. */
  function LowerStr(s: string): (r: string)
    ensures |r| == |s|
    ensures forall i :: 0 <= i < |s| ==> r[i] == Lower(s[i])
  {
    if s == [] then [] else [Lower(s[0])] + LowerStr(s[1..])
  }

  /** `a.lower() == b.lower()`. */
  predicate SameIgnoringCase(a: string, b: string) {
    LowerStr(a) == LowerStr(b)
  }

  /** Two strings of equal length whose characters agree after lower-casing are equal ignoring case. */
  lemma SameIgnoringCaseByChars(a: string, b: string)
    requires |a| == |b|
    requires forall i :: 0 <= i < |a| ==> Lower(a[i]) == Lower(b[i])
    ensures SameIgnoringCase(a, b)
  {
    assert forall i :: 0 <= i < |a| ==> LowerStr(a)[i] == LowerStr(b)[i];
  }

  /** `needle` occurs in `hay` starting at position `k`. */
  predicate OccursAt(hay: string, needle: string, k: nat) {
    k + |needle| <= |hay| && hay[k..k + |needle|] == needle
  }

  /** Python's `needle in hay` on strings (true for the empty needle). */
  function Contains(hay: string, needle: string): (b: bool)
    ensures b <==> exists k: nat :: OccursAt(hay, needle, k)
    decreases |hay|
  {
    if needle <= hay then
      assert OccursAt(hay, needle, 0);
      true
    else if hay == [] then
      false
    else
      var b := Contains(hay[1..], needle);
      if b then
        var k: nat :| OccursAt(hay[1..], needle, k);
        assert OccursAt(hay, needle, k + 1);
        true
      else
        assert forall k: nat :: OccursAt(hay, needle, k) ==> k > 0 && OccursAt(hay[1..], needle, k - 1);
        false
  }

  /** Number of occurrences of `c` in `s`. */
  function Occurrences(s: string, c: char): (n: nat)
    ensures n == 0 <==> c !in s
    ensures n <= |s|
  {
    if s == [] then 0 else (if s[0] == c then 1 else 0) + Occurrences(s[1..], c)
  }

  /**
   * `name, tag = s.split(c)`: succeeds exactly when `c` occurs once, and then
   * yields the text before and after it; with no or several separators the
   * unpacking raises, modelled as `None`.
   */
  function SplitOnce(s: string, c: char): (r: Option<(string, string)>)
    ensures r.Some? <==> Occurrences(s, c) == 1
    ensures r.Some? ==> r.value.0 + [c] + r.value.1 == s
    ensures r.Some? ==> c !in r.value.0 && c !in r.value.1
  {
    if s == [] then None
    else if s[0] == c then
      (if c in s[1..] then None else Some(([], s[1..])))
    else
      match SplitOnce(s[1..], c)
      case None => None
      case Some(p) =>
        assert [s[0]] + p.0 + [c] + p.1 == [s[0]] + (p.0 + [c] + p.1);
        Some(([s[0]] + p.0, p.1))
  }

  /** Round trip: joining two '#'-free names with '#' and splitting again gives the two names back. */
  lemma {:induction false} SplitOnceJoin(a: string, b: string, c: char)
    requires c !in a && c !in b
    ensures SplitOnce(a + [c] + b, c) == Some((a, b))
  {
    var s := a + [c] + b;
    if a == [] {
      assert s[1..] == b;
    } else {
      SplitOnceJoin(a[1..], b, c);
      assert s[1..] == a[1..] + [c] + b;
      assert [a[0]] + a[1..] == a;
    }
  }
}
