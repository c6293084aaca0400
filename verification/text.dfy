/** Substring search on piece names.  The board encodes a piece as a string such as
    "white_pawn", and the capture guards ask whether a square's string mentions the
    opposing colour, the way `std::string::find` does. */
module Text {

  datatype Option<T> = None | Some(value: T)

  /** `sub` occurs in `s` starting at index `k`. */
  predicate OccursAt(s: string, sub: string, k: int)
  {
    0 <= k && k + |sub| <= |s| && s[k..k + |sub|] == sub
  }

  /** `sub` is a substring of `s` (`s.find(sub) != npos`). */
  ghost predicate Contains(s: string, sub: string)
  {
    exists k :: OccursAt(s, sub, k)
  }

  /** First occurrence of `sub` in `s` at or after `from`; `None` plays the role of `npos`. */
  function FindFrom(s: string, sub: string, from: nat): (r: Option<nat>)
    ensures r.Some? ==> from <= r.value && OccursAt(s, sub, r.value)
    ensures r.Some? ==> forall k :: from <= k < r.value ==> !OccursAt(s, sub, k)
    ensures r.None? ==> forall k :: from <= k ==> !OccursAt(s, sub, k)
    decreases |s| - from
  {
    if from + |sub| > |s| then None
    else if s[from..from + |sub|] == sub then Some(from)
    else FindFrom(s, sub, from + 1)
  }

  /** `s.find(sub)`: the index of the first occurrence, or `None` when there is none. */
  function Find(s: string, sub: string): (r: Option<nat>)
    ensures r.Some? <==> Contains(s, sub)
    ensures r.Some? ==> OccursAt(s, sub, r.value) && forall k :: 0 <= k < r.value ==> !OccursAt(s, sub, k)
  {
    FindFrom(s, sub, 0)
  }

  /** A string in which the first character of `sub` never appears cannot contain `sub`. */
  lemma MissingFirstCharNeverContains(s: string, sub: string)
    requires sub != [] && sub[0] !in s
    ensures !Contains(s, sub)
  {
  }

  /** A string shorter than `sub` cannot contain it; in particular the empty square never does. */
  lemma ShortNeverContains(s: string, sub: string)
    requires |s| < |sub|
    ensures !Contains(s, sub)
  {
  }
}
