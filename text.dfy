/**
 * The Python string operations the plugin-registry script relies on:
 * substring search (`line in content`), `str.replace(old, "")`,
 * `str.split('/')[-1]` and the regular-expression class `\w`.
 */
module Text {
  import opened Wrappers

  /** `pat` occurs in `s` starting at index `i`. */
  predicate OccursAt(s: string, pat: string, i: int) {
    0 <= i && i + |pat| <= |s| && s[i..i + |pat|] == pat
  }

  /** The leftmost index at or after `from` where `pat` occurs in `s`. */
  function Find(s: string, pat: string, from: nat): (r: Option<nat>)
    requires from <= |s|
    ensures r.Some? ==> from <= r.value && OccursAt(s, pat, r.value)
                        && forall k :: from <= k < r.value ==> !OccursAt(s, pat, k)
    ensures r.None? ==> forall k :: from <= k ==> !OccursAt(s, pat, k)
    decreases |s| - from
  {
    if from + |pat| > |s| then None
    else if s[from..from + |pat|] == pat then Some(from)
    else if from == |s| then None
    else Find(s, pat, from + 1)
  }

  /** Python's `pat in s` on strings: `pat` occurs somewhere in `s`. */
  predicate Contains(s: string, pat: string) {
    exists i | 0 <= i <= |s| - |pat| :: OccursAt(s, pat, i)
  }

  /** An occurrence inside `a` is an occurrence inside `b + a + c`. */
  lemma OccursInside(a: string, b: string, c: string, pat: string, i: int)
    requires OccursAt(a, pat, i)
    ensures OccursAt(b + a + c, pat, |b| + i)
  {
    assert (b + a + c)[|b| + i..|b| + i + |pat|] == a[i..i + |pat|];
  }

  /** `s.replace(pat, "")`: occurrences removed left to right, without overlap. */
  function RemoveAll(s: string, pat: string): string
    requires pat != []
    decreases |s|
  {
    if |s| < |pat| then s
    else if s[..|pat|] == pat then RemoveAll(s[|pat|..], pat)
    else [s[0]] + RemoveAll(s[1..], pat)
  }

  /** Removing a pattern that does not occur leaves the string as it is. */
  lemma {:induction false} RemoveAllAbsent(s: string, pat: string)
    requires pat != [] && forall i :: !OccursAt(s, pat, i)
    ensures RemoveAll(s, pat) == s
    decreases |s|
  {
    if |s| >= |pat| {
      assert !OccursAt(s, pat, 0);
      forall i ensures !OccursAt(s[1..], pat, i) {
        if OccursAt(s[1..], pat, i) {
          assert s[1..][i..i + |pat|] == s[i + 1..i + 1 + |pat|];
          assert OccursAt(s, pat, i + 1);
        }
      }
      RemoveAllAbsent(s[1..], pat);
      assert s == [s[0]] + s[1..];
    }
  }

  /**
   * `s.split('/')[-1]`: the part after the last '/', or all of `s` when it
   * has none.
   */
  function LastSegment(s: string): string
    decreases |s|
  {
    if s == [] then []
    else if s[|s| - 1] == '/' then []
    else LastSegment(s[..|s| - 1]) + [s[|s| - 1]]
  }

  /**
   * The last segment is the longest suffix without '/': it holds no '/', and
   * it is all of `s` or follows a '/'.
   */
  lemma {:induction false} LastSegmentSuffix(s: string)
    ensures var r := LastSegment(s);
            && '/' !in r && |r| <= |s| && r == s[|s| - |r|..]
            && (|r| < |s| ==> s[|s| - |r| - 1] == '/')
    decreases |s|
  {
    if s != [] && s[|s| - 1] != '/' {
      var front := s[..|s| - 1];
      var r0 := LastSegment(front);
      LastSegmentSuffix(front);
      assert s[|s| - |r0| - 1..] == front[|front| - |r0|..] + [s[|s| - 1]];
    }
  }

  /** After a '/', a segment without '/' is the last segment. */
  lemma LastSegmentAfterSlash(prefix: string, seg: string)
    requires '/' !in seg
    ensures LastSegment(prefix + "/" + seg) == seg
  {
    var s := prefix + "/" + seg;
    LastSegmentSuffix(s);
    assert s[|s| - |seg| - 1] == '/';
    assert s[|s| - |seg|..] == seg;
  }

  /** The `\w` class on ASCII text: letters, digits and the underscore. */
  predicate IsWordChar(c: char) {
    ('a' <= c <= 'z') || ('A' <= c <= 'Z') || ('0' <= c <= '9') || c == '_'
  }

  /** The greedy `\w*` match at the start of `s`. */
  function WordRun(s: string): (r: string)
    ensures |r| <= |s| && r == s[..|r|]
    ensures forall c :: c in r ==> IsWordChar(c)
    ensures |r| < |s| ==> !IsWordChar(s[|r|])
    decreases |s|
  {
    if s == [] || !IsWordChar(s[0]) then []
    else [s[0]] + WordRun(s[1..])
  }
}
