/** `String.prototype.indexOf`, the only string search the handlers use. */
module JsText {

  /** `pattern` occurs in `s` starting at index `i`. */
  predicate OccursAt(s: string, pattern: string, i: int) {
    0 <= i && i + |pattern| <= |s| && s[i..i + |pattern|] == pattern
  }

  /** The first occurrence of `pattern` at or after `from`, or -1. */
  function IndexFrom(s: string, pattern: string, from: nat): (r: int)
    requires from <= |s|
    ensures r == -1 || (from <= r && OccursAt(s, pattern, r))
    ensures forall i :: from <= i && (r == -1 || i < r) ==> !OccursAt(s, pattern, i)
    decreases |s| - from
  {
    if from + |pattern| > |s| then -1
    else if s[from..from + |pattern|] == pattern then from
    else IndexFrom(s, pattern, from + 1)
  }

  /** `s.indexOf(pattern)`: the index of the first occurrence, -1 when none. */
  function IndexOf(s: string, pattern: string): (r: int)
    ensures r == -1 || OccursAt(s, pattern, r)
    ensures r == -1 <==> forall i :: 0 <= i <= |s| ==> !OccursAt(s, pattern, i)
    ensures forall i :: 0 <= i < r ==> !OccursAt(s, pattern, i)
  {
    IndexFrom(s, pattern, 0)
  }

  /** An occurrence that is not at the very start makes `indexOf` positive. */
  lemma PositiveIndex(s: string, pattern: string, k: int)
    requires OccursAt(s, pattern, k)
    requires !OccursAt(s, pattern, 0)
    ensures 0 < IndexOf(s, pattern) <= k
  {
  }
}
