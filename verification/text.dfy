/** Character and string helpers shared by the two components. */
module Text {
  import opened Wrappers

  /** Lower-cases an ASCII capital letter and leaves every other character alone. */
  function LowerChar(c: char): char
  {
    if 'A' <= c <= 'Z' then (c as int + 32) as char else c
  }

  /** `toLowerCase`, restricted to ASCII letters. */
  function Lower(s: string): (r: string)
    ensures |r| == |s|
    ensures forall i :: 0 <= i < |s| ==> r[i] == LowerChar(s[i])
  {
    if s == [] then [] else [LowerChar(s[0])] + Lower(s[1..])
  }

  /** A string whose characters fold one by one to `f` folds to `f`; this spares
      unrolling the fold over a literal. */
  lemma FoldsTo(s: string, f: string)
    requires |s| == |f|
    requires forall i :: 0 <= i < |s| ==> LowerChar(s[i]) == f[i]
    ensures Lower(s) == f
  {
  }

  /** JavaScript truthiness of an optional string: present and non-empty. */
  predicate Truthy(s: Option<string>)
  {
    s.Some? && s.value != ""
  }

  /** Folding twice is folding once, so a folded key can be folded again harmlessly. */
  lemma {:induction false} LowerIdempotent(s: string)
    ensures Lower(Lower(s)) == Lower(s)
  {
    var l := Lower(s);
    assert forall i :: 0 <= i < |s| ==> Lower(l)[i] == LowerChar(LowerChar(s[i]));
  }
}
