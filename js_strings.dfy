/**
 * The two JavaScript string built-ins the request pipeline relies on,
 * `String.prototype.startsWith` and `String.prototype.replace` with a
 * string pattern (which replaces the FIRST occurrence only).
 */
module JsStrings {

  import opened Wrappers

  /** `s.startsWith(p)` */
  predicate StartsWith(s: string, p: string)
  {
    |p| <= |s| && s[..|p|] == p
  }

  /** True when `p` occurs in `s` at index `i`. */
  predicate OccursAt(s: string, p: string, i: int)
  {
    0 <= i && i + |p| <= |s| && s[i..i + |p|] == p
  }

  /**
   * The left-to-right search behind `s.indexOf(p, from)`: the first index
   * at or after `from` where `p` occurs, or `None` when there is none.
   */
  function IndexFrom(s: string, p: string, from: nat): (r: Option<nat>)
    ensures r.Some? ==> from <= r.value && OccursAt(s, p, r.value)
    ensures r.Some? ==> forall j :: from <= j < r.value ==> !OccursAt(s, p, j)
    ensures r.None? ==> forall j :: from <= j ==> !OccursAt(s, p, j)
    decreases |s| - from
  {
    if from + |p| > |s| then None
    else if s[from..from + |p|] == p then Some(from)
    else IndexFrom(s, p, from + 1)
  }

  /** `s.replace(p, rep)` for a string pattern `p` and a replacement string
      without `$` patterns: only the first occurrence is replaced. */
  function ReplaceFirst(s: string, p: string, rep: string): (r: string)
    ensures (forall j :: !OccursAt(s, p, j)) ==> r == s
    ensures forall i :: OccursAt(s, p, i) && (forall j :: 0 <= j < i ==> !OccursAt(s, p, j)) ==>
              r == s[..i] + rep + s[i + |p|..]
  {
    match IndexFrom(s, p, 0)
    case None => s
    case Some(i) => s[..i] + rep + s[i + |p|..]
  }

  /** A string that starts with `p` has its first occurrence of `p` at index 0. */
  lemma {:induction false} FirstOccurrenceOfPrefix(s: string, p: string)
    requires StartsWith(s, p)
    ensures IndexFrom(s, p, 0) == Some(0)
  {
  }

  /** Replacing a prefix by the empty string removes exactly that prefix. */
  lemma {:induction false} ReplacePrefixDropsIt(s: string, p: string)
    requires StartsWith(s, p)
    ensures ReplaceFirst(s, p, "") == s[|p|..]
  {
  }
}
