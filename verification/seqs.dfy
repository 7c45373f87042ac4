/** First-match search over a sequence, the semantics of `Array.prototype.find`. */
module Seqs {
  import opened Wrappers

  /** `i` is the position of the earliest element satisfying `p`. */
  ghost predicate IsFirst<T>(xs: seq<T>, p: T -> bool, i: int)
  {
    0 <= i < |xs| && p(xs[i]) && forall j :: 0 <= j < i ==> !p(xs[j])
  }

  /** No element satisfies `p`. */
  ghost predicate NoneMatch<T>(xs: seq<T>, p: T -> bool)
  {
    forall j :: 0 <= j < |xs| ==> !p(xs[j])
  }

  /** Scans `xs` in order and stops at the first element satisfying `p`. */
  function FindIndex<T>(xs: seq<T>, p: T -> bool): (r: Option<nat>)
    ensures r.Some? ==> IsFirst(xs, p, r.value)
    ensures r.None? <==> NoneMatch(xs, p)
  {
    if |xs| == 0 then None
    else if p(xs[0]) then Some(0)
    else
      match FindIndex(xs[1..], p)
      case None => None
      case Some(i) => Some(i + 1)
  }

  /** The first match is unique, so the search returns exactly it. */
  lemma FindIndexIsFirst<T>(xs: seq<T>, p: T -> bool, i: int)
    requires IsFirst(xs, p, i)
    ensures FindIndex(xs, p) == Some(i)
  {
    assert !NoneMatch(xs, p);
  }
}
