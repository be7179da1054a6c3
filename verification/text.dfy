/**
 The few string and list operations of Python's built-ins that the table of
 contents code relies on: prefix and suffix tests, string repetition for the
 indentation, and list slicing with negative bounds.
 */
module Text {

  /** `s.startswith(prefix)`. */
  predicate StartsWith(s: string, prefix: string) {
    |prefix| <= |s| && s[..|prefix|] == prefix
  }

  /** `s.endswith(suffix)`. */
  predicate EndsWith(s: string, suffix: string) {
    |suffix| <= |s| && s[|s| - |suffix|..] == suffix
  }

  /** `'    ' * depth`: four spaces per level of nesting. */
  function Indent(depth: nat): (r: string)
    ensures |r| == 4 * depth
    ensures forall i :: 0 <= i < |r| ==> r[i] == ' '
  {
    if depth == 0 then "" else "    " + Indent(depth - 1)
  }

  /**
   How Python normalises one bound of `s[start:stop]` against the length `n`:
   a negative bound counts from the end, and the result is clipped to `0..n`.
   */
  function SliceBound(i: int, n: nat): (r: nat)
    ensures r <= n
    ensures 0 <= i <= n ==> r == i
    ensures i < 0 && 0 <= n + i ==> r == n + i
    ensures n + i < 0 ==> r == 0
    ensures n < i ==> r == n
  {
    if i < 0 then (if n + i < 0 then 0 else n + i)
    else if n < i then n
    else i
  }

  /** `s[start:stop]` with Python's semantics: an empty list when the bounds cross. */
  function Slice<T>(s: seq<T>, start: int, stop: int): (r: seq<T>)
    ensures var a, b := SliceBound(start, |s|), SliceBound(stop, |s|);
      && (a < b ==> |r| == b - a && forall k :: 0 <= k < |r| ==> r[k] == s[a + k])
      && (b <= a ==> r == [])
  {
    var a, b := SliceBound(start, |s|), SliceBound(stop, |s|);
    if a < b then s[a..b] else []
  }

  /** Concatenation regroups freely; stated once so that long proofs need not rediscover it. */
  lemma ConcatAssoc<T>(a: seq<T>, b: seq<T>, c: seq<T>)
    ensures (a + b) + c == a + (b + c)
  {
  }

  /** Updating the first element of `[x] + s` gives `[y] + s`. */
  lemma ReplaceHead<T>(x: T, y: T, s: seq<T>)
    ensures ([x] + s)[0 := y] == [y] + s
  {
  }
}
