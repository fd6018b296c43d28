/** The larger, the smaller, and a few facts every part of the model needs. */
module Basics {

  function Max(x: real, y: real): real { if y > x then y else x }

  function Min(x: real, y: real): real { if y < x then y else x }

  /** A product under a name, so that proofs can do without its arithmetic. */
  function Times(x: real, y: real): real { x * y }

  lemma OneMore(n: nat, x: real)
    ensures Times((n + 1) as real, x) == Times(n as real, x) + x
  {
    assert (n + 1) as real == n as real + 1.0;
  }

  ghost predicate Increasing(s: seq<int>) {
    forall i, j :: 0 <= i < j < |s| ==> s[i] < s[j]
  }

  lemma TakeSnoc<T>(s: seq<T>, k: nat)
    requires k < |s|
    ensures s[..k + 1] == s[..k] + [s[k]]
    ensures s[..k + 1][..k] == s[..k] && s[..k + 1][k] == s[k] && |s[..k + 1]| == k + 1
  {
  }

  lemma SubsetSize<T>(a: set<T>, b: set<T>)
    requires a <= b
    ensures |a| <= |b|
  {
    assert b == a + (b - a);
  }
}
