/** Sequences without repetition, and removal by position. */
module Sequences {
  ghost predicate Distinct<T>(s: seq<T>) {
    forall i, j :: 0 <= i < j < |s| ==> s[i] != s[j]
  }

  function Without<T>(s: seq<T>, m: nat): seq<T>
    requires m < |s|
  {
    s[..m] + s[m + 1..]
  }

  lemma WithoutAt<T>(s: seq<T>, m: nat)
    requires m < |s|
    ensures |Without(s, m)| == |s| - 1
    ensures forall i :: 0 <= i < |s| - 1 ==> Without(s, m)[i] == s[if i < m then i else i + 1]
  {
  }
}
